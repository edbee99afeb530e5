/** The video converter page: the upload guard, the simulated conversion progress loop, the
    download name and the format-dependent resolution choice. */
module VideoConverter {
  import opened Wrappers
  import opened JsText
  import opened Types

  /** The upload limit, 100 MB. */
  const MaxVideoBytes := 100 * 1024 * 1024

  const Formats: seq<string> := ["mp4", "mp3", "gif", "avi"]
  const Resolutions: seq<string> := ["1080", "720", "480"]

  const StartMessage := "Đang khởi động engine xử lý..."
  const DoneMessage := "Chuyển đổi thành công!"

  /** `Math.round` on a non-negative value: halves round up. */
  function Round(x: real): (n: int)
    requires x >= 0.0
    ensures n as real - 0.5 <= x < n as real + 0.5
  {
    (x + 0.5).Floor
  }

  /** Rounding is monotone and maps 0..100 into 0..100. */
  lemma RoundMonotone(x: real, y: real)
    requires 0.0 <= x <= y
    ensures Round(x) <= Round(y)
    ensures y <= 100.0 ==> 0 <= Round(x) && Round(y) <= 100
  {
  }

  /** The status line for a progress value below the clamp. */
  function Band(p: real, format: string): (msg: string)
    ensures p < 30.0 ==> msg == "Đang tải video lên server..."
    ensures 30.0 <= p < 60.0 ==> msg == "Đang chuyển đổi sang " + Upper(format) + "..."
    ensures 60.0 <= p < 90.0 ==> msg == "Đang tối ưu hóa định dạng..."
    ensures 90.0 <= p ==> msg == "Đang tạo link tải về..."
  {
    if p < 30.0 then "Đang tải video lên server..."
    else if p < 60.0 then "Đang chuyển đổi sang " + Upper(format) + "..."
    else if p < 90.0 then "Đang tối ưu hóa định dạng..."
    else "Đang tạo link tải về..."
  }

  /** `name.split('.')[0]`: the name up to its first '.', or all of it when it has none. */
  function BeforeFirstDot(name: string): (r: string)
    ensures |r| <= |name| && r == name[..|r|]
    ensures '.' !in r
    ensures |r| < |name| ==> name[|r|] == '.'
  {
    if name == [] || name[0] == '.' then []
    else [name[0]] + BeforeFirstDot(name[1..])
  }

  /** The downloaded file's name. */
  function DownloadName(name: string, format: string): string
  {
    "converted_" + BeforeFirstDot(name) + "." + format
  }

  /** The download name is "converted_", the original name cut at its first '.', then a '.' and the
      chosen format; a name without a '.' is kept whole. */
  lemma DownloadNameShape(name: string, format: string)
    ensures var stem := BeforeFirstDot(name);
      && DownloadName(name, format) == "converted_" + stem + "." + format
      && stem == name[..|stem|] && '.' !in stem
      && ('.' !in name ==> stem == name)
  {
  }

  /** The resolution select is offered only for the video formats mp4 and avi. */
  function ShowResolution(format: string): (r: bool)
    ensures r <==> format == "mp4" || format == "avi"
  {
    format in ["mp4", "avi"]
  }

  class VideoConverterPage {
    var file: Option<File>
    var previewUrl: Option<string>
    var format: string
    var resolution: string
    var mute: bool
    var state: ProcessingState
    /** The displayed percentage. */
    var progress: int
    /** The interval's `currentProgress`. */
    var current: real
    /** Whether the conversion interval is set. */
    var running: bool
    /** The format the running conversion captured when it started. */
    var convertFormat: string

    /** While the interval runs the page is processing a file, the value stays within 0..100 and
        the display is its rounding. */
    ghost predicate Valid()
      reads this
    {
      && 0.0 <= current <= 100.0
      && 0 <= progress <= 100
      && (running ==> state.status == Processing && file.Some? && progress == Round(current))
    }

    constructor ()
      ensures file == None && previewUrl == None && format == "mp4" && resolution == "720" && !mute
      ensures state == IdleState && progress == 0 && !running
      ensures Valid()
    {
      file := None;
      previewUrl := None;
      format := "mp4";
      resolution := "720";
      mute := false;
      state := IdleState;
      progress := 0;
      current := 0.0;
      running := false;
      convertFormat := "mp4";
    }

    /** `handleFileChange` with the chosen file and its preview URL: over 100 MB it is rejected
        and nothing changes; otherwise it replaces the file, the status is idle and the progress
        returns to 0. */
    method FileChange(selected: File, url: string) returns (rejected: bool)
      requires Valid() && !running
      modifies this`file, this`previewUrl, this`state, this`progress
      ensures Valid()
      ensures rejected <==> selected.size > MaxVideoBytes
      ensures rejected ==> file == old(file) && previewUrl == old(previewUrl) && state == old(state) && progress == old(progress)
      ensures !rejected ==> file == Some(selected) && previewUrl == Some(url) && state == IdleState && progress == 0
    {
      if selected.size > MaxVideoBytes {
        return true;
      }
      file := Some(selected);
      previewUrl := Some(url);
      state := IdleState;
      progress := 0;
      return false;
    }

    method SetFormat(f: string)
      requires f in Formats
      modifies this`format
      ensures format == f
    {
      format := f;
    }

    /** The resolution select, which is drawn only for a video format: it sets one of the three
        offered resolutions. Choosing mp3 or gif hides it without resetting the choice. */
    method SetResolution(res: string)
      requires ShowResolution(format) && res in Resolutions
      modifies this`resolution
      ensures resolution == res
    {
      resolution := res;
    }

    /** `handleConvert`: without a file nothing happens; otherwise processing starts at 0 and the
        interval is set. */
    method HandleConvert()
      requires Valid() && !running
      modifies this`state, this`progress, this`current, this`running, this`convertFormat
      ensures Valid()
      ensures file.None? ==> state == old(state) && progress == old(progress) && !running
      ensures file.Some? ==>
        && running && current == 0.0 && progress == 0 && convertFormat == format
        && state == ProcessingState(Processing, Some(StartMessage))
    {
      if file.None? {
        return;
      }
      state := ProcessingState(Processing, Some(StartMessage));
      progress := 0;
      current := 0.0;
      running := true;
      convertFormat := format;
    }

    /** One firing of the interval with the random increment `inc` in [0, 5). Past 100 the value
        is clamped, the interval is cleared and the conversion succeeds, the display keeping its
        last value; otherwise the display is the rounded value and the status line follows its
        band. The display never goes down. */
    method Tick(inc: real)
      requires Valid() && running && 0.0 <= inc < 5.0
      modifies this`current, this`progress, this`state, this`running
      ensures Valid()
      ensures old(current) + inc > 100.0 ==>
        && current == 100.0 && !running && progress == old(progress)
        && state == ProcessingState(Status.Success, Some(DoneMessage))
      ensures old(current) + inc <= 100.0 ==>
        && current == old(current) + inc && running && progress == Round(current)
        && state == ProcessingState(Processing, Some(Band(current, convertFormat)))
      ensures old(progress) <= progress <= 100
    {
      var next := current + inc;
      if next > 100.0 {
        current := 100.0;
        running := false;
        state := ProcessingState(Status.Success, Some(DoneMessage));
      } else {
        RoundMonotone(current, next);
        current := next;
        progress := Round(current);
        state := state.(message := Some(Band(current, convertFormat)));
      }
    }

    /** `handleDownload`: the name the original file is saved under, None without a file. */
    function DownloadTarget(): (r: Option<string>)
      reads this
      ensures r.Some? <==> file.Some?
      ensures r.Some? ==> r.value == DownloadName(file.value.name, format)
    {
      if file.None? then None else Some(DownloadName(file.value.name, format))
    }
  }
}
