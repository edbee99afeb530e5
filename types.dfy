/** Shapes shared by several pages: the tool catalogue's `ToolCategory` and `ToolDef`, the browser's
    selected `File` (name, MIME type, size in bytes) and the `ProcessingState` record of types.ts. */
module Types {
  import opened Wrappers

  /** The seven categories, in declaration order (the order `Object.values` lists them in). */
  datatype Category = Image | Pdf | Ai | Text | Video | Utility | Dev
  {
    /** The enum's string value, shown as the group heading. */
    function Label(): string
    {
      match this
      case Image => "Hình ảnh & AI"
      case Pdf => "Tài liệu PDF"
      case Ai => "AI Tools Hot"
      case Text => "Văn bản"
      case Video => "Video & Âm thanh"
      case Utility => "Tiện ích & Năng suất"
      case Dev => "Developer Tools"
    }
  }

  const AllCategories: seq<Category> := [Image, Pdf, Ai, Text, Video, Utility, Dev]

  /** A catalogue entry. The optional flags are plain booleans, an absent flag being false; the
      icon is presentation only and the optional `price` is never read. */
  datatype Tool = Tool(id: string, name: string, description: string, category: Category, path: string,
                       isNew: bool, isPopular: bool, comingSoon: bool, isPremium: bool)

  datatype File = File(name: string, mime: string, size: nat)

  datatype Status = Idle | Processing | Success | Error

  /** `{ status, message? }`; the optional `progress` of types.ts is not used by the modelled pages. */
  datatype ProcessingState = ProcessingState(status: Status, message: Option<string>)

  const IdleState := ProcessingState(Idle, None)
}
