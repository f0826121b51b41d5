/**
 * The file-manager hook: its state record and single-field setters, the
 * trailing-slash normalisation of the current path, the loading of a
 * folder's listing (working-directory prefixing and the reading of the
 * items out of the reply), and the deletion of files (the query sent and
 * what each kind of reply does to the state).
 */
module FileManager {
  import opened Js

  /** An entry of a folder listing; only its name matters here. */
  datatype FileItem = FileItem(name: string)

  datatype ViewMode = Grid | List

  /** A snapshot of the hook's state record. */
  datatype FileManagerState = FileManagerState(files: seq<FileItem>, currentPath: string,
                                               selectedFiles: seq<FileItem>, viewMode: ViewMode,
                                               isLoading: bool, error: Option<string>)

  const InitialState := FileManagerState([], "", [], Grid, false, None)

  // ---------------------------------------------------------------------------
  // Paths
  // ---------------------------------------------------------------------------

  /** One trailing `/` is dropped, unless the path is the root `/` itself. */
  function NormalizePath(path: string): string {
    if EndsWith(path, "/") && |path| > 1 then path[..|path| - 1] else path
  }

  /** The root stays the root, one trailing slash comes off any other path, and nothing else changes. */
  lemma NormalizePathEffect(path: string)
    ensures NormalizePath("/") == "/"
    ensures path != "" ==> NormalizePath(path + "/") == path
    ensures NormalizePath(path) == path || (|path| > 1 && NormalizePath(path) + "/" == path)
    ensures !EndsWith(path, "/") ==> NormalizePath(path) == path
  {
    if path != "" {
      assert (path + "/")[..|path|] == path;
    }
    if NormalizePath(path) != path {
      assert path == path[..|path| - 1] + [path[|path| - 1]];
    }
  }

  /** Only one slash is stripped: `a//` becomes `a/`. */
  lemma NormalizeStripsOnce(path: string)
    requires path != ""
    ensures NormalizePath(path + "//") == path + "/"
  {
    assert (path + "//")[..|path| + 1] == path + "/";
  }

  /** The `working_dir` sent when loading: a leading `/` is added to a non-empty path that lacks one. */
  function WorkingDir(currentPath: string): string {
    if currentPath != "" && !StartsWith(currentPath, "/") then "/" + currentPath else currentPath
  }

  /**
   * The empty path stays empty; any other result starts with exactly the
   * `/` it had or one added in front; applying it twice changes nothing.
   */
  lemma WorkingDirEffect(path: string)
    ensures path == "" ==> WorkingDir(path) == ""
    ensures path != "" ==> StartsWith(WorkingDir(path), "/")
    ensures StartsWith(path, "/") ==> WorkingDir(path) == path
    ensures path != "" && !StartsWith(path, "/") ==> WorkingDir(path) == "/" + path
    ensures WorkingDir(WorkingDir(path)) == WorkingDir(path)
  {
    if path != "" && !StartsWith(path, "/") {
      assert ("/" + path)[..1] == "/";
    }
  }

  // ---------------------------------------------------------------------------
  // Replies
  // ---------------------------------------------------------------------------

  /** A reply body: a JSON object with or without an `items` array, a JSON array, or text. */
  datatype Reply = JsonObject(items: Option<seq<FileItem>>) | JsonArray(elems: seq<FileItem>) | Text(text: string)

  /** The listing read out of a reply: `items` if it is an array, else the reply if it is one, else nothing. */
  function ExtractItems(reply: Reply): seq<FileItem> {
    match reply
    case JsonObject(items) => if items.Some? then items.value else []
    case JsonArray(elems) => elems
    case Text(_) => []
  }

  /** A listing comes only from an array in the reply, and an array is always taken whole. */
  lemma ExtractItemsShapes(reply: Reply)
    ensures ExtractItems(reply) != [] ==> reply.JsonArray? || (reply.JsonObject? && reply.items.Some?)
    ensures reply.JsonArray? ==> ExtractItems(reply) == reply.elems
    ensures reply.JsonObject? && reply.items.Some? ==> ExtractItems(reply) == reply.items.value
    ensures reply.Text? || reply == JsonObject(None) ==> ExtractItems(reply) == []
  {
  }

  /**
   * How the requests of a load end: the reply of the first one that did not
   * throw, or `LoadFailed` when every one threw. Each request's own error is
   * caught and skipped, so it carries no message.
   */
  datatype LoadOutcome = Loaded(reply: Reply) | LoadFailed

  /** A reply that JavaScript treats as false: the empty text. */
  predicate FalsyReply(reply: Reply) {
    reply == Text("")
  }

  /** The message thrown when no request produced a truthy reply. */
  const AllUrlsFailed := "All URL formats failed"

  /**
   * No usable reply: every request threw, so the reply stayed `null`, or the
   * reply was falsy. Either way `loadFiles` throws `AllUrlsFailed`.
   */
  predicate NoResponse(outcome: LoadOutcome) {
    outcome.LoadFailed? || FalsyReply(outcome.reply)
  }

  /** The state after `loadFiles`; with no usable reply it records `AllUrlsFailed` and keeps the listing. */
  function AfterLoad(s: FileManagerState, outcome: LoadOutcome): FileManagerState {
    match outcome
    case Loaded(reply) =>
      if FalsyReply(reply) then s.(error := Some(AllUrlsFailed), isLoading := false)
      else s.(files := ExtractItems(reply), error := None, isLoading := false)
    case LoadFailed =>
      s.(error := Some(AllUrlsFailed), isLoading := false)
  }

  /**
   * A load always ends with the spinner off and touches only the listing,
   * the error and the spinner; a truthy reply replaces the listing and
   * clears the error, and otherwise the listing is kept and the error is
   * `AllUrlsFailed`, the only message a load can leave.
   */
  lemma AfterLoadEffect(s: FileManagerState, outcome: LoadOutcome)
    ensures var r := AfterLoad(s, outcome);
      && !r.isLoading
      && r.(files := s.files, error := s.error, isLoading := s.isLoading) == s
      && (r.error == None || r.error == Some(AllUrlsFailed))
      && (r.error == None <==> outcome.Loaded? && !FalsyReply(outcome.reply))
      && (r.error == Some(AllUrlsFailed) <==> outcome.LoadFailed? || outcome == Loaded(Text("")))
      && (outcome.Loaded? && !FalsyReply(outcome.reply) ==> r.files == ExtractItems(outcome.reply))
      && (NoResponse(outcome) ==> r.files == s.files)
  {
  }

  // ---------------------------------------------------------------------------
  // Deleting
  // ---------------------------------------------------------------------------

  /** `xs.join(sep)`. */
  function Join(xs: seq<string>, sep: string): string
    decreases |xs|
  {
    if xs == [] then ""
    else if |xs| == 1 then xs[0]
    else xs[0] + sep + Join(xs[1..], sep)
  }

  /** The names, each passed through `encode` (which stands for `encodeURIComponent`). */
  function EncodeAll(names: seq<string>, encode: string -> string): (r: seq<string>)
    ensures |r| == |names| && forall i :: 0 <= i < |names| ==> r[i] == encode(names[i])
  {
    seq(|names|, i requires 0 <= i < |names| => encode(names[i]))
  }

  /** The query of the delete request. */
  function DeleteQuery(names: seq<string>, encode: string -> string, currentPath: string): string {
    "items[]=" + Join(EncodeAll(names, encode), "&items[]=") + "&working_dir=" + currentPath
  }

  /** `key=value`. */
  function Param(key: string, value: string): string {
    key + "=" + value
  }

  function ItemParams(encoded: seq<string>): (r: seq<string>)
    ensures |r| == |encoded| && forall i :: 0 <= i < |encoded| ==> r[i] == Param("items[]", encoded[i])
  {
    seq(|encoded|, i requires 0 <= i < |encoded| => Param("items[]", encoded[i]))
  }

  lemma {:induction false} JoinItems(xs: seq<string>)
    requires xs != []
    ensures "items[]=" + Join(xs, "&items[]=") == Join(ItemParams(xs), "&")
  {
    if |xs| > 1 {
      JoinItems(xs[1..]);
      assert ItemParams(xs)[1..] == ItemParams(xs[1..]);
      calc {
        "items[]=" + Join(xs, "&items[]=");
        "items[]=" + (xs[0] + "&items[]=" + Join(xs[1..], "&items[]="));
        Param("items[]", xs[0]) + "&" + ("items[]=" + Join(xs[1..], "&items[]="));
        Join(ItemParams(xs), "&");
      }
    }
  }

  lemma {:induction false} JoinSnoc(xs: seq<string>, x: string, sep: string)
    requires xs != []
    ensures Join(xs + [x], sep) == Join(xs, sep) + sep + x
  {
    if |xs| > 1 {
      assert (xs + [x])[1..] == xs[1..] + [x];
      JoinSnoc(xs[1..], x, sep);
    } else {
      assert xs + [x] == [xs[0], x];
      assert [xs[0], x][1..] == [x];
    }
  }

  /**
   * For at least one name the query is the `&`-joined list of one
   * `items[]=` parameter per encoded name, in order, followed by the
   * `working_dir` parameter; with no names it carries one empty item.
   */
  lemma DeleteQueryParams(names: seq<string>, encode: string -> string, currentPath: string)
    ensures names != [] ==>
      DeleteQuery(names, encode, currentPath)
      == Join(ItemParams(EncodeAll(names, encode)) + [Param("working_dir", currentPath)], "&")
    ensures names == [] ==> DeleteQuery(names, encode, currentPath) == "items[]=&working_dir=" + currentPath
  {
    if names != [] {
      var xs := EncodeAll(names, encode);
      JoinItems(xs);
      JoinSnoc(ItemParams(xs), Param("working_dir", currentPath), "&");
    }
  }

  /** How the delete request ends: a text or JSON reply, or a thrown error with its HTTP status and message. */
  datatype DeleteReply = TextReply(text: string) | JsonReply | RequestFailed(status: Option<int>, message: Option<string>)

  /** The error raised for a reply: none for `OK`, the text for other text, a fixed message for JSON. */
  function ThrownBy(reply: DeleteReply): Option<(Option<int>, Option<string>)> {
    match reply
    case TextReply(text) => if text == "OK" then None else Some((None, Some(text)))
    case JsonReply => Some((None, Some("Failed to delete files")))
    case RequestFailed(status, message) => Some((status, message))
  }

  /** A 400 status, or a message mentioning 400, means the folder was not empty. */
  predicate IsNotEmptyFolder(status: Option<int>, message: Option<string>) {
    status == Some(400) || (message.Some? && Includes(message.value, "400"))
  }

  const NotEmptyMessage := "Không thể xóa thư mục này vì nó không trống!"

  /** The state after `deleteFiles`, given its reply and the outcome of the reload it may trigger. */
  function AfterDelete(s: FileManagerState, reply: DeleteReply, reload: LoadOutcome): FileManagerState {
    match ThrownBy(reply)
    case None => AfterLoad(s, reload).(selectedFiles := [])
    case Some((status, message)) =>
      if IsNotEmptyFolder(status, message) then AfterLoad(s.(error := Some(NotEmptyMessage)), reload)
      else s.(error := Some(if message.Some? then message.value else "Failed to delete files"))
  }

  /** A message without the digit 4 does not mention 400. */
  lemma NoFourNo400(message: string)
    requires forall i :: 0 <= i < |message| ==> message[i] != '4'
    ensures !Includes(message, "400")
  {
    forall j: nat ensures !OccursAt(message, "400", j) {
      assert j + 3 <= |message| ==> message[j..j + 3][0] == message[j];
    }
  }

  /**
   * An `OK` reloads and clears the selection; a not-empty-folder error
   * reloads, and a successful reload then clears the message it had set;
   * a reload without a usable reply leaves `AllUrlsFailed` and the old
   * listing; any other error records its message and changes nothing else.
   */
  lemma AfterDeleteEffect(s: FileManagerState, reply: DeleteReply, reload: LoadOutcome)
    ensures reply == TextReply("OK") ==>
      AfterDelete(s, reply, reload) == AfterLoad(s, reload).(selectedFiles := [])
    ensures reply == TextReply("OK") && !NoResponse(reload) ==>
      AfterDelete(s, reply, reload).error == None
      && AfterDelete(s, reply, reload).files == ExtractItems(reload.reply)
      && AfterDelete(s, reply, reload).selectedFiles == []
    ensures reply == TextReply("OK") && NoResponse(reload) ==>
      AfterDelete(s, reply, reload).error == Some(AllUrlsFailed)
      && AfterDelete(s, reply, reload).files == s.files
      && AfterDelete(s, reply, reload).selectedFiles == []
    ensures reply.RequestFailed? && reply.status == Some(400) && reload.Loaded? && !FalsyReply(reload.reply) ==>
      AfterDelete(s, reply, reload).error == None
      && AfterDelete(s, reply, reload).files == ExtractItems(reload.reply)
    ensures reply.RequestFailed? && reply.status == Some(400) && NoResponse(reload) ==>
      AfterDelete(s, reply, reload).error == Some(AllUrlsFailed)
      && AfterDelete(s, reply, reload).files == s.files
    ensures reply == JsonReply ==> AfterDelete(s, reply, reload) == s.(error := Some("Failed to delete files"))
    ensures reply.TextReply? && reply.text != "OK" && !Includes(reply.text, "400") ==>
      AfterDelete(s, reply, reload) == s.(error := Some(reply.text))
    ensures reply != TextReply("OK") ==> AfterDelete(s, reply, reload).selectedFiles == s.selectedFiles
  {
    NoFourNo400("Failed to delete files");
  }

  // ---------------------------------------------------------------------------
  // The hook
  // ---------------------------------------------------------------------------

  /** The hook's state record and the operations that update it. */
  class FileManagerHook {
    var files: seq<FileItem>
    var currentPath: string
    var selectedFiles: seq<FileItem>
    var viewMode: ViewMode
    var isLoading: bool
    var error: Option<string>

    function State(): FileManagerState
      reads this
    {
      FileManagerState(files, currentPath, selectedFiles, viewMode, isLoading, error)
    }

    /** An empty listing, the empty initial path, grid view, not loading, no error. */
    constructor ()
      ensures State() == InitialState
    {
      files := [];
      currentPath := "";
      selectedFiles := [];
      viewMode := Grid;
      isLoading := false;
      error := None;
    }

    method SetFiles(fs: seq<FileItem>)
      modifies this
      ensures State() == old(State()).(files := fs)
    {
      files := fs;
    }

    /** Stores the normalised path and clears the selection. */
    method SetCurrentPath(path: string)
      modifies this
      ensures State() == old(State()).(currentPath := NormalizePath(path), selectedFiles := [])
    {
      var normalizedPath := path;
      if EndsWith(normalizedPath, "/") && |normalizedPath| > 1 {
        normalizedPath := normalizedPath[..|normalizedPath| - 1];
      }
      currentPath := normalizedPath;
      selectedFiles := [];
    }

    method SetSelectedFiles(fs: seq<FileItem>)
      modifies this
      ensures State() == old(State()).(selectedFiles := fs)
    {
      selectedFiles := fs;
    }

    method SetViewMode(mode: ViewMode)
      modifies this
      ensures State() == old(State()).(viewMode := mode)
    {
      viewMode := mode;
    }

    method SetLoading(loading: bool)
      modifies this
      ensures State() == old(State()).(isLoading := loading)
    {
      isLoading := loading;
    }

    method SetError(e: Option<string>)
      modifies this
      ensures State() == old(State()).(error := e)
    {
      error := e;
    }

    /** `loadFiles`: returns the `working_dir` it requests; the request's outcome is a parameter. */
    method LoadFiles(outcome: LoadOutcome) returns (workingDir: string)
      modifies this
      ensures workingDir == WorkingDir(old(currentPath))
      ensures State() == AfterLoad(old(State()), outcome)
    {
      SetLoading(true);
      SetError(None);
      workingDir := currentPath;
      if workingDir != "" && !StartsWith(workingDir, "/") {
        workingDir := "/" + workingDir;
      }
      match outcome {
        case Loaded(reply) =>
          if FalsyReply(reply) {
            SetError(Some(AllUrlsFailed));
          } else {
            SetFiles(ExtractItems(reply));
          }
        case LoadFailed =>
          SetError(Some(AllUrlsFailed));
      }
      SetLoading(false);
    }

    /** `deleteFiles`: returns the query it sends; the reply and the outcome of any reload are parameters. */
    method DeleteFiles(fileNames: seq<string>, encode: string -> string, reply: DeleteReply,
                       reload: LoadOutcome) returns (query: string)
      modifies this
      ensures query == DeleteQuery(fileNames, encode, old(currentPath))
      ensures State() == AfterDelete(old(State()), reply, reload)
    {
      var items := EncodeAll(fileNames, encode);
      query := "items[]=" + Join(items, "&items[]=") + "&working_dir=" + currentPath;
      var thrown: Option<(Option<int>, Option<string>)>;
      match reply {
        case TextReply(text) =>
          if text == "OK" {
            var reloadDir := LoadFiles(reload);
            SetSelectedFiles([]);
            thrown := None;
          } else {
            thrown := Some((None, Some(text)));
          }
        case JsonReply =>
          thrown := Some((None, Some("Failed to delete files")));
        case RequestFailed(status, message) =>
          thrown := Some((status, message));
      }
      if thrown.Some? {
        var (status, message) := thrown.value;
        if IsNotEmptyFolder(status, message) {
          SetError(Some(NotEmptyMessage));
          var reloadDir := LoadFiles(reload);
        } else {
          SetError(Some(if message.Some? then message.value else "Failed to delete files"));
        }
      }
    }
  }
}
