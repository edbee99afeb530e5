/** The home page: search-and-category filtering of the tool list, the popular list, the grouped
    view, and the "no results" block. */
module Home {
  import opened Wrappers
  import opened Lists
  import opened JsText
  import opened Types
  import opened Language
  import Catalogue

  /** The active category tab: 'ALL' or one category. */
  datatype CategoryFilter = All | Only(category: Category)

  predicate InCategory(tool: Tool, filter: CategoryFilter)
  {
    filter.All? || filter.category == tool.category
  }

  /** The search test on the tool's own name and description, both sides lowercased. */
  predicate MatchesSearch(tool: Tool, search: string)
  {
    Includes(Lower(tool.name), Lower(search)) || Includes(Lower(tool.description), Lower(search))
  }

  predicate Matches(tool: Tool, search: string, filter: CategoryFilter)
  {
    MatchesSearch(tool, search) && InCategory(tool, filter)
  }

  /** `filteredTools`. */
  function FilteredTools(tools: seq<Tool>, search: string, filter: CategoryFilter): (r: seq<Tool>)
    ensures forall t :: t in r <==> t in tools && Matches(t, search, filter)
  {
    Filter(tools, (t: Tool) => Matches(t, search, filter))
  }

  /** The filter keeps the catalogue's order: its result is a subsequence of `tools`. */
  lemma FilteredIsSubsequence(tools: seq<Tool>, search: string, filter: CategoryFilter)
    ensures IsSubsequence(FilteredTools(tools, search, filter), tools)
  {
    FilterIsSubsequence(tools, (t: Tool) => Matches(t, search, filter));
  }

  /** The empty string occurs in every string. */
  lemma IncludesEmpty(hay: string)
    ensures Includes(hay, "")
  {
    assert StartsWith(hay, "");
  }

  /** No search and the 'ALL' tab keep every tool. */
  lemma EmptySearchKeepsAll(tools: seq<Tool>)
    ensures FilteredTools(tools, "", All) == tools
  {
    assert Lower("") == "";
    forall t | t in tools
      ensures Matches(t, "", All)
    {
      IncludesEmpty(Lower(t.name));
    }
    FilterAll(tools, (t: Tool) => Matches(t, "", All));
  }

  /** `popularTools`: exactly the popular tools, in order. */
  function PopularTools(tools: seq<Tool>): (r: seq<Tool>)
    ensures forall t :: t in r <==> t in tools && t.isPopular
  {
    Filter(tools, (t: Tool) => t.isPopular)
  }

  lemma PopularIsSubsequence(tools: seq<Tool>)
    ensures IsSubsequence(PopularTools(tools), tools)
  {
    FilterIsSubsequence(tools, (t: Tool) => t.isPopular);
  }

  /** The default view: the 'ALL' tab with no search. It shows the popular grid and, below it,
      the grouped view. */
  predicate ShowGroups(search: string, filter: CategoryFilter)
  {
    filter == All && search == ""
  }

  /** The main grid: the filtered tools when a search is typed or a category chosen, the popular
      tools on the default view. Either way it lists tools of `tools` in catalogue order, each
      matching the search and tab, or popular on the default view. */
  function Displayed(tools: seq<Tool>, search: string, filter: CategoryFilter): (r: seq<Tool>)
    ensures IsSubsequence(r, tools)
    ensures forall t :: t in r ==> t in tools
    ensures !ShowGroups(search, filter) ==> forall t :: t in r <==> t in tools && Matches(t, search, filter)
    ensures ShowGroups(search, filter) ==> forall t :: t in r <==> t in tools && t.isPopular
  {
    if search != "" || filter != All then
      FilteredIsSubsequence(tools, search, filter);
      FilteredTools(tools, search, filter)
    else
      PopularIsSubsequence(tools);
      PopularTools(tools)
  }

  /** The "no results" block, shown whenever the filter is empty (even on the popular view). */
  function NoResults(tools: seq<Tool>, search: string, filter: CategoryFilter): (r: bool)
    ensures r <==> forall t :: t in tools ==> !Matches(t, search, filter)
  {
    var f := FilteredTools(tools, search, filter);
    assert |f| > 0 ==> f[0] in f;
    |f| == 0
  }

  /** A heading and the tools listed under it. */
  datatype Group = Group(category: Category, tools: seq<Tool>)

  function CategoryTools(tools: seq<Tool>, c: Category): seq<Tool>
  {
    Filter(tools, (t: Tool) => t.category == c)
  }

  /** The headings of a grouped view, top to bottom. */
  function Headings(gs: seq<Group>): (r: seq<Category>)
    ensures |r| == |gs| && forall i :: 0 <= i < |gs| ==> r[i] == gs[i].category
  {
    if gs == [] then [] else [gs[0].category] + Headings(gs[1..])
  }

  /** No category is listed twice. */
  predicate Distinct(cats: seq<Category>)
  {
    forall i, j :: 0 <= i < j < |cats| ==> cats[i] != cats[j]
  }

  /** One section per category of `cats` that has tools, in the order of `cats`. */
  function Groups(tools: seq<Tool>, cats: seq<Category>): (r: seq<Group>)
    ensures forall g :: g in r ==> g.category in cats && g.tools == CategoryTools(tools, g.category) && g.tools != []
    ensures forall c :: c in cats && CategoryTools(tools, c) != [] ==> Group(c, CategoryTools(tools, c)) in r
    ensures Distinct(cats) ==> Distinct(Headings(r))
  {
    if cats == [] then []
    else
      var rest := Groups(tools, cats[1..]);
      var here := CategoryTools(tools, cats[0]);
      assert Distinct(cats) ==> Distinct(cats[1..]) && cats[0] !in cats[1..];
      if here == [] then rest else [Group(cats[0], here)] + rest
  }

  /** The headings follow the order of `cats`. */
  lemma {:induction false} GroupsInOrder(tools: seq<Tool>, cats: seq<Category>)
    ensures IsSubsequence(Headings(Groups(tools, cats)), cats)
  {
    if cats != [] {
      GroupsInOrder(tools, cats[1..]);
      var r := Groups(tools, cats);
      var rest := Groups(tools, cats[1..]);
      if CategoryTools(tools, cats[0]) == [] {
        SubsequenceOfTail(Headings(r), cats);
      } else {
        assert Headings(r)[1..] == Headings(rest);
      }
    }
  }

  /** The grouped view over `Object.values(ToolCategory)`: its headings come in that order, each
      at most once, and each over exactly its category's tools. */
  function CategoryGroups(tools: seq<Tool>): (r: seq<Group>)
    ensures IsSubsequence(Headings(r), AllCategories)
    ensures Distinct(Headings(r))
    ensures forall g :: g in r ==> g.tools == CategoryTools(tools, g.category) && g.tools != []
  {
    GroupsInOrder(tools, AllCategories);
    CategoriesDistinct();
    Groups(tools, AllCategories)
  }

  lemma CategoriesDistinct()
    ensures Distinct(AllCategories)
  {
    var cats := AllCategories;
    assert cats == [Image, Pdf, Ai, Text, Video, Utility, Dev];
  }

  /** Each group lists exactly its category's tools, no group is empty, and every tool appears
      in the group of its category. */
  lemma GroupsPartition(tools: seq<Tool>)
    ensures forall g :: g in CategoryGroups(tools) ==>
      g.tools != [] && forall t :: t in g.tools <==> t in tools && t.category == g.category
    ensures forall t :: t in tools ==>
      exists g :: g in CategoryGroups(tools) && g.category == t.category && t in g.tools
  {
    forall t | t in tools
      ensures exists g :: g in CategoryGroups(tools) && g.category == t.category && t in g.tools
    {
      var c := t.category;
      assert c in AllCategories by {
        match c
        case Image => assert AllCategories[0] == c;
        case Pdf => assert AllCategories[1] == c;
        case Ai => assert AllCategories[2] == c;
        case Text => assert AllCategories[3] == c;
        case Video => assert AllCategories[4] == c;
        case Utility => assert AllCategories[5] == c;
        case Dev => assert AllCategories[6] == c;
      }
      assert t in CategoryTools(tools, c);
      assert Group(c, CategoryTools(tools, c)) in CategoryGroups(tools);
    }
  }

  /** On the default view every tool of the catalogue is on the page: in the grouped view under
      its category, and in the grid as well when it is popular. Off the default view no group is
      drawn, and the grid holds exactly the matching tools. */
  lemma DefaultViewListsEveryTool(tools: seq<Tool>, search: string, filter: CategoryFilter)
    ensures ShowGroups(search, filter) ==>
      forall t :: t in tools ==>
        && (exists g :: g in CategoryGroups(tools) && g.category == t.category && t in g.tools)
        && (t in Displayed(tools, search, filter) <==> t.isPopular)
    ensures !ShowGroups(search, filter) ==>
      forall t :: t in Displayed(tools, search, filter) <==> t in FilteredTools(tools, search, filter)
  {
    GroupsPartition(tools);
  }

  /** Every heading is the category of some listed tool. */
  lemma HeadingsFromTools(tools: seq<Tool>)
    ensures forall g :: g in CategoryGroups(tools) ==> exists i :: 0 <= i < |tools| && tools[i].category == g.category
  {
    forall g | g in CategoryGroups(tools)
      ensures exists i :: 0 <= i < |tools| && tools[i].category == g.category
    {
      assert g.tools[0] in g.tools;
      var i :| 0 <= i < |tools| && tools[i] == g.tools[0];
    }
  }

  /** On the shipped catalogue no tool is in TEXT or DEV, so those two headings are skipped. */
  lemma CatalogueSkipsEmptyCategories()
    ensures forall g :: g in CategoryGroups(Catalogue.Tools) ==> g.category != Text && g.category != Dev
  {
    var tools := Catalogue.Tools;
    assert forall i :: 0 <= i < |tools| ==> tools[i].category != Text && tools[i].category != Dev;
    HeadingsFromTools(tools);
  }

  // ---- The search as written -------------------------------------------------------------

  /** The key the page builds with `tool.${tool.translationKey}.name`: no tool has a
      `translationKey`, so the template inserts "undefined" for every tool. */
  const NameKey := "tool.undefined.name"
  const DescKey := "tool.undefined.desc"

  /** `getToolName`/`getToolDesc` as written: the translation of the shared key, falling back to
      the tool's own text only when that translation is empty, which it never is. */
  function AsWrittenName(dict: map<string, string>, tool: Tool): string
  {
    Or(T(dict, NameKey), tool.name)
  }

  function AsWrittenDesc(dict: map<string, string>, tool: Tool): string
  {
    Or(T(dict, DescKey), tool.description)
  }

  predicate AsWrittenMatches(dict: map<string, string>, tool: Tool, search: string, filter: CategoryFilter)
  {
    && (Includes(Lower(AsWrittenName(dict, tool)), Lower(search))
        || Includes(Lower(AsWrittenDesc(dict, tool)), Lower(search)))
    && InCategory(tool, filter)
  }

  function AsWrittenFiltered(dict: map<string, string>, tools: seq<Tool>, search: string, filter: CategoryFilter)
    : (r: seq<Tool>)
    ensures forall t :: t in r <==> t in tools && AsWrittenMatches(dict, t, search, filter)
  {
    Filter(tools, (t: Tool) => AsWrittenMatches(dict, t, search, filter))
  }

  /** As written, the text searched is the same for every tool, whatever the dictionary: the
      search cannot tell two tools of the same category apart. */
  lemma AsWrittenIgnoresTool(dict: map<string, string>, a: Tool, b: Tool, search: string, filter: CategoryFilter)
    requires a.category == b.category
    ensures AsWrittenMatches(dict, a, search, filter) == AsWrittenMatches(dict, b, search, filter)
  {
    TNonEmpty(dict, NameKey);
    TNonEmpty(dict, DescKey);
  }

  /** The shared keys are already lower case. */
  lemma KeysLowered()
    ensures Lower(NameKey) == NameKey && Lower(DescKey) == DescKey
  {
  }

  /** With a dictionary that has no entry for the shared keys, no tool matches "word" as written. */
  lemma AsWrittenNoWordMatch(d: map<string, string>, t: Tool)
    requires NameKey !in d && DescKey !in d
    ensures !AsWrittenMatches(d, t, "word", All)
  {
    var search := Lower("word");
    assert search == "word";
    var name := Lower(AsWrittenName(d, t));
    var desc := Lower(AsWrittenDesc(d, t));
    assert name == NameKey && desc == DescKey by {
      KeysLowered();
    }
    NoWordInKeys();
  }

  /** Neither shared key contains "word": it has no 'w' at all. */
  lemma NoWordInKeys()
    ensures !Includes(NameKey, "word") && !Includes(DescKey, "word")
  {
    NoWIn(NameKey);
    NoWIn(DescKey);
  }

  lemma NoWIn(key: string)
    requires key == NameKey || key == DescKey
    ensures !Includes(key, "word")
  {
    assert 'w' !in key;
    NotIncludedWithoutFirstChar(key, "word");
  }

  /** So, as written, the search "word" finds nothing, whatever the tools are. */
  lemma AsWrittenWordFindsNothing(d: map<string, string>, tools: seq<Tool>)
    requires NameKey !in d && DescKey !in d
    ensures AsWrittenFiltered(d, tools, "word", All) == []
  {
    var r := AsWrittenFiltered(d, tools, "word", All);
    if r != [] {
      assert r[0] in r;
      AsWrittenNoWordMatch(d, r[0]);
      assert false;
    }
  }

  /** The same search on the tools' own names finds the PDF-to-Word tool. */
  lemma SearchFindsPdfWord()
    ensures Catalogue.Tools[4].id == "pdf-word"
    ensures Catalogue.Tools[4] in FilteredTools(Catalogue.Tools, "word", All)
  {
    var name := "PDF sang Word Pro";
    assert Catalogue.Tools[4].name == name;
    var lowered := Lower(name);
    assert lowered[9] == 'w' && lowered[10] == 'o' && lowered[11] == 'r' && lowered[12] == 'd';
    assert lowered[9..13] == "word";
    IncludesAt(lowered, "word", 9);
    assert Lower("word") == "word";
  }

  /** The counterexample on the shipped catalogue: as written, searching "word" with a dictionary
      that has no "tool.undefined.*" entries (the empty one, say) lists nothing, while the search on
      the tools' own names lists 'PDF sang Word Pro'. */
  lemma AsWrittenMissesPdfWord(d: map<string, string>)
    requires NameKey !in d && DescKey !in d
    ensures AsWrittenFiltered(d, Catalogue.Tools, "word", All) == []
    ensures Catalogue.Tools[4] in FilteredTools(Catalogue.Tools, "word", All)
  {
    AsWrittenWordFindsNothing(d, Catalogue.Tools);
    SearchFindsPdfWord();
  }

  /** A needle whose first character does not occur in `hay` is not found in it. */
  lemma {:induction false} NotIncludedWithoutFirstChar(hay: string, needle: string)
    requires needle != [] && needle[0] !in hay
    ensures !Includes(hay, needle)
  {
    if |hay| > 0 {
      assert hay[0] in hay;
      assert !StartsWith(hay, needle) by {
        if |needle| <= |hay| {
          assert hay[..|needle|][0] == hay[0];
        }
      }
      assert forall c :: c in hay[1..] ==> c in hay;
      NotIncludedWithoutFirstChar(hay[1..], needle);
    } else {
      assert !StartsWith(hay, needle);
    }
  }
}
