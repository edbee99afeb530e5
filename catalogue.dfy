/** The constant tool catalogue of App.tsx and the routes that wrap a tool in the ad gate. */
module Catalogue {
  import opened Wrappers
  import opened Types

  const Tools: seq<Tool> := [
    Tool("img-convert", "Chuyển đổi ảnh", "Đổi đuôi ảnh sang JPG, PNG, WebP và nén giảm dung lượng.",
         Image, "/image-converter", false, true, false, false),
    Tool("bg-remove", "Tách nền ảnh AI", "Xóa phông nền tự động trong 5 giây (Xem QC).",
         Image, "/bg-remove", false, true, false, true),
    Tool("img-compress", "Nén ảnh", "Giảm dung lượng ảnh mà không giảm chất lượng.",
         Image, "/image-converter", false, false, false, false),
    Tool("watermark-remover", "Xóa Watermark", "Dùng AI xóa logo/chữ đóng dấu trên ảnh.",
         Image, "/coming-soon", false, false, true, false),
    Tool("pdf-word", "PDF sang Word Pro", "Chuyển đổi file PDF sang Word giữ nguyên định dạng (Xem QC).",
         Pdf, "/pdf-tool", false, true, false, true),
    Tool("pdf-excel", "PDF sang Excel", "Trích xuất bảng tính từ PDF sang Excel.",
         Pdf, "/coming-soon", false, false, true, false),
    Tool("pdf-merge", "Ghép file PDF", "Gộp nhiều file PDF thành một file duy nhất.",
         Pdf, "/coming-soon", false, false, true, false),
    Tool("ocr", "Scan ảnh ra chữ", "Trích xuất văn bản từ hình ảnh cực nhanh bằng Gemini AI.",
         Ai, "/ocr", false, true, false, true),
    Tool("ai-writer", "AI Viết bài", "Tự động viết blog, caption Facebook, email.",
         Ai, "/ai-writer", true, false, false, true),
    Tool("ai-summarize", "Tóm tắt văn bản", "AI đọc và tóm tắt nội dung dài thành ngắn gọn.",
         Ai, "/text-summarizer", true, false, false, true),
    Tool("word-counter", "Bộ đếm từ", "Đếm số từ, ký tự, đoạn văn và thời gian đọc.",
         Utility, "/word-counter", true, false, false, false),
    Tool("password-gen", "Tạo mật khẩu", "Tạo chuỗi mật khẩu mạnh ngẫu nhiên bảo mật cao.",
         Utility, "/password-generator", true, false, false, false),
    Tool("qr-gen", "Tạo mã QR", "Tạo mã QR cho link, wifi, văn bản miễn phí.",
         Utility, "/qr-generator", true, false, false, false),
    Tool("calc-percent", "Tính phần trăm", "Công cụ tính % tăng giảm giá nhanh chóng.",
         Utility, "/percentage-calculator", true, false, false, false),
    Tool("video-convert", "Chuyển đổi Video", "Convert MP4 sang MP3, AVI, MOV.",
         Video, "/video-converter", true, false, false, false),
    Tool("speech-text", "Giọng nói thành chữ", "Chuyển file ghi âm thành văn bản (Speech to Text).",
         Video, "/speech-to-text", true, false, false, true),
    Tool("text-speech", "Văn bản thành giọng nói", "AI đọc văn bản thành giọng nói tự nhiên (Text to Speech).",
         Video, "/text-to-speech", true, false, false, true)
  ]

  /** A protected route: its path and the id it looks the tool up by. */
  datatype GuardedRoute = GuardedRoute(path: string, toolId: string)

  const GuardedRoutes: seq<GuardedRoute> := [
    GuardedRoute("/bg-remove", "bg-remove"),
    GuardedRoute("/ocr", "ocr"),
    GuardedRoute("/ai-writer", "ai-writer"),
    GuardedRoute("/text-summarizer", "ai-summarize"),
    GuardedRoute("/speech-to-text", "speech-text"),
    GuardedRoute("/text-to-speech", "text-speech"),
    GuardedRoute("/pdf-tool", "pdf-word")
  ]

  /** `tools.find(t => t.id === id)`: the first entry with that id, None when there is none. */
  function Find(tools: seq<Tool>, id: string): (r: Option<Tool>)
    ensures r.Some? ==> r.value in tools && r.value.id == id
    ensures r.None? <==> forall i :: 0 <= i < |tools| ==> tools[i].id != id
  {
    if tools == [] then None
    else if tools[0].id == id then Some(tools[0])
    else Find(tools[1..], id)
  }

  /** The lookup App.tsx performs for each protected route. */
  function FindTool(id: string): (r: Option<Tool>)
    ensures r.Some? ==> r.value in Tools && r.value.id == id
    ensures r.None? <==> forall i :: 0 <= i < |Tools| ==> Tools[i].id != id
  {
    Find(Tools, id)
  }

  /** The catalogue holds 17 tools with pairwise distinct ids, so a lookup by id is unambiguous. */
  lemma IdsDistinct()
    ensures |Tools| == 17
    ensures forall i, j :: 0 <= i < j < |Tools| ==> Tools[i].id != Tools[j].id
  {
  }

  /** Looking a tool up by its own id returns that very entry. */
  lemma FindToolOf(i: nat)
    requires i < |Tools|
    ensures FindTool(Tools[i].id) == Some(Tools[i])
  {
    IdsDistinct();
    FindDistinct(Tools, i);
  }

  /** In a sequence whose ids are pairwise distinct, looking up entry `i`'s id returns entry `i`. */
  lemma {:induction false} FindDistinct(tools: seq<Tool>, i: nat)
    requires i < |tools|
    requires forall a, b :: 0 <= a < b < |tools| ==> tools[a].id != tools[b].id
    ensures Find(tools, tools[i].id) == Some(tools[i])
  {
    if i > 0 {
      assert tools[0].id != tools[i].id;
      FindDistinct(tools[1..], i - 1);
    }
  }

  /** A route's lookup finds an entry (the `!` never meets `undefined`); the entry is a premium
      tool and its own path is the route's path. */
  predicate Resolves(route: GuardedRoute)
  {
    && FindTool(route.toolId).Some?
    && FindTool(route.toolId).value.isPremium
    && FindTool(route.toolId).value.path == route.path
  }

  /** The entry route `k` guards, by its position in the catalogue. */
  lemma RouteResolves(k: nat)
    requires k < |GuardedRoutes|
    ensures Resolves(GuardedRoutes[k])
  {
    if k == 0 {
      assert GuardedRoutes[0] == GuardedRoute(Tools[1].path, Tools[1].id);
      FindToolOf(1);
    } else if k == 1 {
      assert GuardedRoutes[1] == GuardedRoute(Tools[7].path, Tools[7].id);
      FindToolOf(7);
    } else if k == 2 {
      assert GuardedRoutes[2] == GuardedRoute(Tools[8].path, Tools[8].id);
      FindToolOf(8);
    } else if k == 3 {
      assert GuardedRoutes[3] == GuardedRoute(Tools[9].path, Tools[9].id);
      FindToolOf(9);
    } else if k == 4 {
      assert GuardedRoutes[4] == GuardedRoute(Tools[15].path, Tools[15].id);
      FindToolOf(15);
    } else if k == 5 {
      assert GuardedRoutes[5] == GuardedRoute(Tools[16].path, Tools[16].id);
      FindToolOf(16);
    } else {
      assert GuardedRoutes[6] == GuardedRoute(Tools[4].path, Tools[4].id);
      FindToolOf(4);
    }
  }

  /** Every guarded route resolves. */
  lemma GuardedRoutesResolve()
    ensures forall k :: 0 <= k < |GuardedRoutes| ==> Resolves(GuardedRoutes[k])
  {
    forall k | 0 <= k < |GuardedRoutes| {
      RouteResolves(k);
    }
  }

  /** Conversely, every premium tool sits behind the gate: some guarded route looks it up by its
      id at its own path. */
  lemma PremiumToolsGuarded()
    ensures forall i :: 0 <= i < |Tools| && Tools[i].isPremium ==>
      exists k :: 0 <= k < |GuardedRoutes| && GuardedRoutes[k].toolId == Tools[i].id
        && GuardedRoutes[k].path == Tools[i].path
  {
    assert GuardedRoutes[0].toolId == Tools[1].id;
    assert GuardedRoutes[1].toolId == Tools[7].id;
    assert GuardedRoutes[2].toolId == Tools[8].id;
    assert GuardedRoutes[3].toolId == Tools[9].id;
    assert GuardedRoutes[4].toolId == Tools[15].id;
    assert GuardedRoutes[5].toolId == Tools[16].id;
    assert GuardedRoutes[6].toolId == Tools[4].id;
  }

  /** Every tool announced as coming soon links to the placeholder page. */
  lemma ComingSoonPath()
    ensures forall i :: 0 <= i < |Tools| && Tools[i].comingSoon ==> Tools[i].path == "/coming-soon"
  {
  }

  /** Exactly four tools are marked popular: img-convert, bg-remove, pdf-word and ocr. */
  lemma PopularSet()
    ensures forall i :: 0 <= i < |Tools| ==>
      (Tools[i].isPopular <==> Tools[i].id in ["img-convert", "bg-remove", "pdf-word", "ocr"])
  {
  }
}
