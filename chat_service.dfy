/** The chat pipeline of backend/app/services/chat_service.py: turning the attachments into
    text context and image parts, building the system prompt and the message list sent to the
    model, accumulating a streamed reply, and the checks `process_chat_message` makes before it
    asks the model. The session, the file system, the model's reply and the allowed-model test
    are inputs; raised exceptions are not modelled. */
module ChatService {
  import opened Wrappers
  import Py
  import Paths
  import FileService
  import ServerApp
  import Seqs

  // ---------------------------------------------------------------------------
  // The system prompt
  // ---------------------------------------------------------------------------

  const BasePrompt: string :=
    "你是一个专业的 macOS 智能助手，可以帮助用户管理系统、排查问题、执行自动化任务。\n"
    + "你可以使用提供的工具来获取信息或执行操作。\n"
    + "在执行具有潜在风险的操作（如删除文件、修改系统设置）前，请务必仔细确认路径和参数。\n"
    + "请用中文回复用户。"

  const AttachmentHeader: string := "\n\n附件内容:\n"

  /** `_build_system_prompt`: the base prompt, followed by the attachment context under its
      header when there is any. */
  function SystemPrompt(context: string): string {
    if context != "" then BasePrompt + AttachmentHeader + context else BasePrompt
  }

  /** The attachment context a system prompt carries: whatever follows the header. */
  function ContextOf(prompt: string): string {
    var n := |BasePrompt| + |AttachmentHeader|;
    if |prompt| >= n then prompt[n..] else ""
  }

  /** The context can be read back from the prompt, so different contexts give different
      prompts; every prompt starts with the base prompt. */
  lemma {:induction false} SystemPromptRoundTrip(context: string)
    ensures ContextOf(SystemPrompt(context)) == context
    ensures SystemPrompt(context)[..|BasePrompt|] == BasePrompt
    ensures context == "" <==> SystemPrompt(context) == BasePrompt
  {
    var p := SystemPrompt(context);
    if context != "" {
      assert p[|BasePrompt| + |AttachmentHeader|..] == context;
      assert p[..|BasePrompt|] == BasePrompt;
      assert |p| > |BasePrompt|;
    }
  }

  lemma SystemPromptInjective(a: string, b: string)
    requires SystemPrompt(a) == SystemPrompt(b)
    ensures a == b
  {
    SystemPromptRoundTrip(a);
    SystemPromptRoundTrip(b);
  }

  // ---------------------------------------------------------------------------
  // Messages for the model
  // ---------------------------------------------------------------------------

  /** A part of a multimodal user message. */
  datatype Part = TextPart(text: string) | ImageUrl(url: string)

  /** A message's content: a plain string, or a list of parts. */
  datatype Content = Plain(text: string) | Parts(parts: seq<Part>)

  datatype LlmMessage = LlmMessage(role: string, content: Content)

  /** A stored message as the session hands it over; `None` is a missing key. */
  datatype HistoryMessage = HistoryMessage(role: Option<string>, content: Option<string>)

  predicate IsTurnRole(role: Option<string>) {
    role == Some("user") || role == Some("assistant")
  }

  /** The history entry as it is passed on: its role, and its content or "". */
  function Turn(h: HistoryMessage): LlmMessage
    requires IsTurnRole(h.role)
  {
    LlmMessage(h.role.value, Plain(if h.content.Some? then h.content.value else ""))
  }

  /** The user and assistant messages of a history, in order, as they are passed on. */
  function Turns(history: seq<HistoryMessage>): (ts: seq<LlmMessage>)
    ensures |ts| <= |history|
  {
    if history == [] then []
    else (if IsTurnRole(history[0].role) then [Turn(history[0])] else []) + Turns(history[1..])
  }

  /** Only user and assistant messages are passed on. */
  lemma {:induction false} TurnsRoles(history: seq<HistoryMessage>)
    ensures forall i :: 0 <= i < |Turns(history)| ==> Turns(history)[i].role in {"user", "assistant"}
    decreases |history|
  {
    if history != [] {
      TurnsRoles(history[1..]);
      var head := if IsTurnRole(history[0].role) then [Turn(history[0])] else [];
      assert Turns(history) == head + Turns(history[1..]);
    }
  }

  /** Filtering the history distributes over concatenation. */
  lemma {:induction false} TurnsAppend(a: seq<HistoryMessage>, b: seq<HistoryMessage>)
    ensures Turns(a + b) == Turns(a) + Turns(b)
    decreases |a|
  {
    if a == [] {
      assert a + b == b;
    } else {
      TurnsAppend(a[1..], b);
      var head := if IsTurnRole(a[0].role) then [Turn(a[0])] else [];
      assert (a + b)[1..] == a[1..] + b;
      assert (a + b)[0] == a[0];
      assert Turns(a + b) == head + Turns(a[1..] + b);
      Seqs.AppendAssoc(head, Turns(a[1..]), Turns(b));
    }
  }

  /** Nothing but user and assistant messages is dropped, and those keep their order. */
  lemma {:induction false} TurnsKeepAll(history: seq<HistoryMessage>)
    requires forall i :: 0 <= i < |history| ==> IsTurnRole(history[i].role)
    ensures |Turns(history)| == |history|
    ensures forall i :: 0 <= i < |history| ==> Turns(history)[i] == Turn(history[i])
    decreases |history|
  {
    if history != [] {
      TurnsKeepAll(history[1..]);
    }
  }

  lemma {:induction false} TurnsDropAll(history: seq<HistoryMessage>)
    requires forall i :: 0 <= i < |history| ==> !IsTurnRole(history[i].role)
    ensures Turns(history) == []
    decreases |history|
  {
    if history != [] {
      TurnsDropAll(history[1..]);
    }
  }

  /** The current user message: the plain string, or the text part followed by the images. */
  function UserContent(message: string, images: seq<Part>): Content {
    if images == [] then Plain(message) else Parts([TextPart(message)] + images)
  }

  /** `history[:-1]` */
  function DropLast<T>(s: seq<T>): (r: seq<T>)
    ensures |r| == if s == [] then 0 else |s| - 1
    ensures s != [] ==> s == r + [s[|s| - 1]]
  {
    if s == [] then [] else s[..|s| - 1]
  }

  /** What `_build_llm_messages` returns: the system prompt, the user and assistant messages
      of the history without its last entry, and the current user message. */
  function LlmMessages(message: string, context: string, images: seq<Part>,
                       history: seq<HistoryMessage>): seq<LlmMessage>
  {
    [LlmMessage("system", Plain(SystemPrompt(context)))] + Turns(DropLast(history))
      + [LlmMessage("user", UserContent(message, images))]
  }

  /** `_build_llm_messages` */
  method BuildLlmMessages(message: string, context: string, images: seq<Part>,
                          history: seq<HistoryMessage>) returns (messages: seq<LlmMessage>)
    ensures messages == LlmMessages(message, context, images, history)
  {
    messages := [LlmMessage("system", Plain(SystemPrompt(context)))];
    var earlier := DropLast(history);
    var i := 0;
    while i < |earlier|
      invariant 0 <= i <= |earlier|
      invariant messages == [LlmMessage("system", Plain(SystemPrompt(context)))] + Turns(earlier[..i])
    {
      var h := earlier[i];
      TurnsAppend(earlier[..i], [h]);
      assert earlier[..i + 1] == earlier[..i] + [h];
      if IsTurnRole(h.role) {
        messages := messages + [Turn(h)];
      }
      i := i + 1;
    }
    assert earlier[..i] == earlier;
    messages := messages + [LlmMessage("user", UserContent(message, images))];
  }

  /** The message list opens with the system prompt carrying the context and closes with the
      current message; in between come only user and assistant turns, at most one per earlier
      history entry. */
  lemma LlmMessagesShape(message: string, context: string, images: seq<Part>,
                         history: seq<HistoryMessage>)
    ensures var ms := LlmMessages(message, context, images, history);
      && 2 <= |ms| <= |history| + 2
      && ms[0] == LlmMessage("system", Plain(SystemPrompt(context)))
      && ContextOf(ms[0].content.text) == context
      && ms[|ms| - 1] == LlmMessage("user", UserContent(message, images))
      && (forall i :: 0 < i < |ms| - 1 ==> ms[i].role in {"user", "assistant"})
  {
    SystemPromptRoundTrip(context);
    var ts := Turns(DropLast(history));
    TurnsRoles(DropLast(history));
    var ms := LlmMessages(message, context, images, history);
    assert forall i :: 0 < i < |ms| - 1 ==> ms[i] == ts[i - 1];
  }

  /** Images turn the user content into parts, text first; without images it stays a string. */
  lemma UserContentParts(message: string, images: seq<Part>)
    ensures images == [] ==> UserContent(message, images) == Plain(message)
    ensures images != [] ==> (UserContent(message, images).Parts?
      && UserContent(message, images).parts[0] == TextPart(message)
      && UserContent(message, images).parts[1..] == images)
  {
  }

  // ---------------------------------------------------------------------------
  // Attachments
  // ---------------------------------------------------------------------------

  /** A key of an attachment dictionary: missing, present with the value `None`, or present
      with a text. */
  datatype Field = Missing | Null | Given(text: string)

  /** An attachment's metadata, as `model_dump` gives it. For the file id, the path and the
      content type, `None` stands for a missing key or a `None` value: the code treats the two
      alike, since both are falsy. The file name is the exception: `get` with a default tells
      a missing key from a present `None`, so it is a `Field`. */
  datatype Attachment = Attachment(fileId: Option<string>, path: Option<string>,
                                   contentType: Option<string>, filename: Field)

  /** What the file system answers: whether a path exists, the base64 text of its bytes, and
      the text `FileService.extract_text` gets out of it. */
  datatype Files = Files(present: string -> bool, base64: string -> string, text: string -> string)

  datatype Piece = TextPiece(text: string) | ImagePiece(part: Part)

  /** Attachments without a file id, without a path, or whose path does not exist are skipped. */
  predicate Skipped(a: Attachment, files: Files) {
    a.fileId.None? || a.fileId.value == "" || a.path.None? || a.path.value == ""
    || !files.present(a.path.value)
  }

  const ImageHeader: string := "data:"
  const DefaultImageType: string := "image/png"
  const FileHeader: string := "文件: "

  /** The data URL of an image attachment: its content type, or "image/png" without one. */
  function DataUrl(contentType: Option<string>, encoded: string): string {
    var ct := if contentType.Some? && contentType.value != "" then contentType.value else DefaultImageType;
    ImageHeader + ct + ";base64," + encoded
  }

  /** `attachment.get("filename", path.name)` as the f-string prints it: a missing key falls
      back to the path's file name, and a present `None` prints as "None". */
  function Label(filename: Field, path: string): string {
    match filename
    case Missing => Paths.Name(path)
    case Null => "None"
    case Given(text) => text
  }

  /** What one attachment contributes: nothing, an image part, or a labelled text part. */
  function PieceOf(a: Attachment, files: Files): (r: Option<Piece>)
    ensures Skipped(a, files) ==> r.None?
    ensures r.Some? && r.value.ImagePiece? ==> FileService.IsImageFile(a.path.value, a.contentType)
    ensures r.Some? && r.value.TextPiece? ==>
      var t := r.value.text; var text := files.text(a.path.value);
      text != "" && |t| > |FileHeader| + |text| && t[..|FileHeader|] == FileHeader && t[|t| - |text|..] == text
  {
    if Skipped(a, files) then None
    else
      var path := a.path.value;
      if FileService.IsImageFile(path, a.contentType) then
        Some(ImagePiece(ImageUrl(DataUrl(a.contentType, files.base64(path)))))
      else
        var text := files.text(path);
        if text == "" then None
        else
          Framed(Label(a.filename, path), text);
          Some(TextPiece(FileHeader + Label(a.filename, path) + "\n" + text))
  }

  /** The header, the label and a newline come before the text. */
  lemma Framed(name: string, text: string)
    ensures var t := FileHeader + name + "\n" + text;
      |t| > |FileHeader| && t[..|FileHeader|] == FileHeader && t[|t| - |text|..] == text
  {
    var t := FileHeader + name + "\n" + text;
    assert t[..|FileHeader|] == FileHeader;
    assert t[|t| - |text|..] == text;
  }

  /** The text parts and the image parts `piece` gives the attachments, each in attachment order. */
  function Gather(atts: seq<Attachment>, piece: Attachment -> Option<Piece>): (r: (seq<string>, seq<Part>))
    ensures |r.0| + |r.1| <= |atts|
  {
    if atts == [] then ([], [])
    else
      var rest := Gather(atts[1..], piece);
      var p := piece(atts[0]);
      if p.None? then rest
      else if p.value.TextPiece? then ([p.value.text] + rest.0, rest.1)
      else (rest.0, [p.value.part] + rest.1)
  }

  /** Gathering distributes over concatenation, so every part keeps its attachment's place. */
  lemma {:induction false} GatherAppend(xs: seq<Attachment>, ys: seq<Attachment>, piece: Attachment -> Option<Piece>)
    ensures Gather(xs + ys, piece).0 == Gather(xs, piece).0 + Gather(ys, piece).0
    ensures Gather(xs + ys, piece).1 == Gather(xs, piece).1 + Gather(ys, piece).1
    decreases |xs|
  {
    if xs == [] {
      assert xs + ys == ys;
    } else {
      assert (xs + ys)[1..] == xs[1..] + ys;
      assert (xs + ys)[0] == xs[0];
      GatherAppend(xs[1..], ys, piece);
    }
  }

  /** One attachment alone gives its piece, or nothing. */
  lemma GatherOne(a: Attachment, piece: Attachment -> Option<Piece>)
    ensures Gather([a], piece) ==
      if piece(a).None? then ([], [])
      else if piece(a).value.TextPiece? then ([piece(a).value.text], [])
      else ([], [piece(a).value.part])
  {
    assert [a][1..] == [];
    var none: seq<string> := [];
    var noImage: seq<Part> := [];
    assert Gather([a][1..], piece) == (none, noImage);
    if piece(a).Some? && piece(a).value.TextPiece? {
      assert [piece(a).value.text] + none == [piece(a).value.text];
    } else if piece(a).Some? {
      assert [piece(a).value.part] + noImage == [piece(a).value.part];
    }
  }

  /** Attachments with nothing to contribute leave the result as it is. */
  lemma {:induction false} GatherSkips(xs: seq<Attachment>, ys: seq<Attachment>, piece: Attachment -> Option<Piece>)
    requires forall i :: 0 <= i < |ys| ==> piece(ys[i]).None?
    ensures Gather(xs + ys, piece).0 == Gather(xs, piece).0
    ensures Gather(xs + ys, piece).1 == Gather(xs, piece).1
    decreases |ys|
  {
    GatherAppend(xs, ys, piece);
    GatherNone(ys, piece);
    assert Gather(xs, piece).0 + [] == Gather(xs, piece).0;
    assert Gather(xs, piece).1 + [] == Gather(xs, piece).1;
  }

  lemma {:induction false} GatherNone(ys: seq<Attachment>, piece: Attachment -> Option<Piece>)
    requires forall i :: 0 <= i < |ys| ==> piece(ys[i]).None?
    ensures Gather(ys, piece) == ([], [])
    decreases |ys|
  {
    if ys != [] {
      assert piece(ys[0]).None?;
      assert forall i :: 0 <= i < |ys[1..]| ==> ys[1..][i] == ys[i + 1];
      GatherNone(ys[1..], piece);
    }
  }

  /** The pieces of the attachments as `_process_attachments` finds them. */
  function Pieces(atts: seq<Attachment>, files: Files): (seq<string>, seq<Part>) {
    Gather(atts, a => PieceOf(a, files))
  }

  /** The loop of `_process_attachments`, for any way of reading one attachment. */
  method GatherLoop(atts: seq<Attachment>, piece: Attachment -> Option<Piece>)
    returns (texts: seq<string>, images: seq<Part>)
    ensures texts == Gather(atts, piece).0 && images == Gather(atts, piece).1
  {
    texts := [];
    images := [];
    var i := 0;
    while i < |atts|
      invariant 0 <= i <= |atts|
      invariant texts == Gather(atts[..i], piece).0 && images == Gather(atts[..i], piece).1
    {
      var p := piece(atts[i]);
      GatherAppend(atts[..i], [atts[i]], piece);
      GatherOne(atts[i], piece);
      assert atts[..i + 1] == atts[..i] + [atts[i]];
      if p.Some? {
        if p.value.TextPiece? {
          texts := texts + [p.value.text];
        } else {
          images := images + [p.value.part];
        }
      }
      i := i + 1;
    }
    assert atts[..i] == atts;
  }

  /** `_process_attachments`: the text parts joined by blank lines and stripped, and the image
      parts, each in attachment order. */
  method ProcessAttachments(atts: seq<Attachment>, files: Files) returns (context: string, images: seq<Part>)
    ensures context == Py.Strip(Py.Join("\n\n", Pieces(atts, files).0))
    ensures images == Pieces(atts, files).1
  {
    var texts;
    texts, images := GatherLoop(atts, a => PieceOf(a, files));
    context := Py.Strip(Py.Join("\n\n", texts));
  }

  /** Skipped attachments contribute nothing; an image contributes its data URL, with
      "image/png" when it has no content type; other files contribute their text under a
      "文件: " label with the file name, or nothing when no text came out. */
  lemma PieceRules(a: Attachment, files: Files)
    ensures (!Skipped(a, files) && !FileService.IsImageFile(a.path.value, a.contentType)
      && files.text(a.path.value) != "") ==>
      PieceOf(a, files) == Some(TextPiece(FileHeader + Label(a.filename, a.path.value) + "\n" + files.text(a.path.value)))
    ensures Skipped(a, files) ==> PieceOf(a, files).None?
    ensures !Skipped(a, files) && FileService.IsImageFile(a.path.value, a.contentType) ==>
      PieceOf(a, files) == Some(ImagePiece(ImageUrl(DataUrl(a.contentType, files.base64(a.path.value)))))
    ensures !Skipped(a, files) && !FileService.IsImageFile(a.path.value, a.contentType) ==>
      (PieceOf(a, files).None? <==> files.text(a.path.value) == "")
    ensures PieceOf(a, files).Some? && PieceOf(a, files).value.TextPiece? ==>
      var t := PieceOf(a, files).value.text;
      |t| > |FileHeader| && t[..|FileHeader|] == FileHeader
      && t[|t| - |files.text(a.path.value)|..] == files.text(a.path.value)
  {
    if PieceOf(a, files).Some? && PieceOf(a, files).value.TextPiece? {
      var path := a.path.value;
      var name := Label(a.filename, path);
      var text := files.text(path);
      var t := FileHeader + name + "\n" + text;
      assert PieceOf(a, files).value.text == t;
      assert t[..|FileHeader|] == FileHeader;
      assert t[|t| - |text|..] == text;
    }
  }

  /** The chat endpoint dumps every attachment model, so the file name key is always there; an
      attachment sent without a file name has its text labelled "None", whatever its path. */
  lemma DumpedWithoutName(a: Attachment, files: Files)
    requires a.filename == Null && PieceOf(a, files).Some? && PieceOf(a, files).value.TextPiece?
    ensures Py.StartsWith(PieceOf(a, files).value.text, FileHeader + "None\n")
  {
    var text := files.text(a.path.value);
    var t := FileHeader + "None" + "\n" + text;
    assert PieceOf(a, files).value.text == t;
    assert t[..|FileHeader + "None\n"|] == FileHeader + "None\n";
  }

  /** A data URL reads back as "data:", the type, ";base64," and the encoded bytes. */
  lemma DataUrlParts(contentType: Option<string>, encoded: string)
    ensures var url := DataUrl(contentType, encoded);
      var ct := if contentType.Some? && contentType.value != "" then contentType.value else DefaultImageType;
      && url[..|ImageHeader|] == ImageHeader
      && url[|ImageHeader|..|ImageHeader| + |ct|] == ct
      && url[|url| - |encoded| - 8..] == ";base64," + encoded
  {
    var ct := if contentType.Some? && contentType.value != "" then contentType.value else DefaultImageType;
    var url := DataUrl(contentType, encoded);
    var tail := ";base64," + encoded;
    assert url == ImageHeader + ct + tail;
    assert |tail| == |encoded| + 8;
    assert url[|url| - |tail|..] == tail;
    assert url[..|ImageHeader|] == ImageHeader;
    assert url[|ImageHeader|..|ImageHeader| + |ct|] == ct;
  }

  /** Without attachments there is no context and no image. */
  lemma NoAttachments(files: Files)
    ensures Py.Strip(Py.Join("\n\n", Pieces([], files).0)) == "" && Pieces([], files).1 == []
  {
    assert Py.AllSpace("");
  }

  // ---------------------------------------------------------------------------
  // The streamed reply
  // ---------------------------------------------------------------------------

  /** A streamed chunk: for each choice, the content of its delta (`None` when the delta or its
      content is missing). */
  datatype Chunk = Chunk(choices: seq<Option<string>>)

  datatype Event = ContentEvent(content: string) | ErrorEvent(error: string)

  /** What a chunk adds: the first choice's delta content, or "" when there is none. */
  function ChunkText(c: Chunk): string {
    if c.choices == [] || c.choices[0].None? then "" else c.choices[0].value
  }

  /** The non-empty delta contents of the chunks, in order. */
  function Deltas(chunks: seq<Chunk>): (ds: seq<string>)
    ensures |ds| <= |chunks|
  {
    if chunks == [] then []
    else
      var t := ChunkText(chunks[|chunks| - 1]);
      Deltas(chunks[..|chunks| - 1]) + (if t != "" then [t] else [])
  }

  function ContentEvents(ds: seq<string>): (es: seq<Event>)
    ensures |es| == |ds|
  {
    seq(|ds|, i requires 0 <= i < |ds| => ContentEvent(ds[i]))
  }

  /** The streaming loop of `process_chat_message`: one content event per non-empty delta, and
      the reply as the deltas laid end to end. */
  method StreamReply(chunks: seq<Chunk>) returns (events: seq<Event>, reply: string)
    ensures events == ContentEvents(Deltas(chunks))
    ensures reply == Seqs.Concat(Deltas(chunks))
  {
    events := [];
    reply := "";
    ghost var ds: seq<string> := [];
    var i := 0;
    while i < |chunks|
      invariant 0 <= i <= |chunks|
      invariant ds == Deltas(chunks[..i])
      invariant events == ContentEvents(ds) && reply == Seqs.Concat(ds)
    {
      var t := ChunkText(chunks[i]);
      assert Deltas(chunks[..i + 1]) == ds + (if t != "" then [t] else []) by {
        DeltasNext(chunks, i);
      }
      if t != "" {
        assert ContentEvents(ds + [t]) == events + [ContentEvent(t)] && Seqs.Concat(ds + [t]) == reply + t by {
          StreamStep(ds, t);
        }
        reply := reply + t;
        events := events + [ContentEvent(t)];
        ds := ds + [t];
      } else {
        assert ds + [] == ds;
      }
      i := i + 1;
    }
    assert chunks[..i] == chunks;
  }

  lemma DeltasNext(chunks: seq<Chunk>, i: nat)
    requires i < |chunks|
    ensures var t := ChunkText(chunks[i]);
      Deltas(chunks[..i + 1]) == Deltas(chunks[..i]) + (if t != "" then [t] else [])
  {
    Seqs.TakeSnoc(chunks, i);
    DeltasSnoc(chunks[..i], chunks[i]);
  }

  /** One more delta adds one event and extends the reply by its text. */
  lemma StreamStep(ds: seq<string>, t: string)
    ensures ContentEvents(ds + [t]) == ContentEvents(ds) + [ContentEvent(t)]
    ensures Seqs.Concat(ds + [t]) == Seqs.Concat(ds) + t
  {
    assert (ds + [t])[..|ds|] == ds;
  }

  /** Every content event carries text, and the saved reply is exactly the events' texts in
      order; chunks without choices or content add nothing. */
  lemma {:induction false} StreamEventsMakeReply(chunks: seq<Chunk>)
    ensures var ds := Deltas(chunks); var es := ContentEvents(ds);
      (forall i :: 0 <= i < |es| ==> es[i].ContentEvent? && es[i].content != "")
      && Seqs.Concat(seq(|es|, i requires 0 <= i < |es| => es[i].content)) == Seqs.Concat(ds)
    decreases |chunks|
  {
    var ds := Deltas(chunks);
    var es := ContentEvents(ds);
    DeltasNonEmpty(chunks);
    assert seq(|es|, i requires 0 <= i < |es| => es[i].content) == ds;
  }

  lemma {:induction false} DeltasNonEmpty(chunks: seq<Chunk>)
    ensures forall i :: 0 <= i < |Deltas(chunks)| ==> Deltas(chunks)[i] != ""
    decreases |chunks|
  {
    if chunks != [] {
      DeltasNonEmpty(chunks[..|chunks| - 1]);
    }
  }

  /** A chunk with text adds it at the end; any other chunk adds nothing. */
  lemma DeltasSnoc(chunks: seq<Chunk>, c: Chunk)
    ensures Deltas(chunks + [c]) == Deltas(chunks) + (if ChunkText(c) != "" then [ChunkText(c)] else [])
  {
    assert (chunks + [c])[..|chunks|] == chunks;
  }

  // ---------------------------------------------------------------------------
  // process_chat_message
  // ---------------------------------------------------------------------------

  /** A session as `get_session(load_messages=True)` returns it. */
  datatype Session = Session(title: string, messages: seq<HistoryMessage>)

  datatype Saved = Saved(role: string, content: string)

  /** The model's answers for a model name and a message list: the chunks of a streamed reply
      and the content of a complete one. */
  datatype Llm = Llm(chunks: (string, seq<LlmMessage>) -> seq<Chunk>,
                     complete: (string, seq<LlmMessage>) -> string)

  /** What a call did: the events it yielded, the title it set, the messages it saved, in that
      order, and the model and messages it sent, if it asked the model at all. */
  datatype ChatOutcome = ChatOutcome(events: seq<Event>, newTitle: Option<string>, saved: seq<Saved>,
                                     sent: Option<(string, seq<LlmMessage>)>)

  const HistoryWindow: nat := 10

  /** `messages[-10:]` */
  function Window(ms: seq<HistoryMessage>): (w: seq<HistoryMessage>)
    ensures |w| == if |ms| > HistoryWindow then HistoryWindow else |ms|
    ensures w == ms[|ms| - |w|..]
  {
    if |ms| > HistoryWindow then ms[|ms| - HistoryWindow..] else ms
  }

  /** The model used: the one asked for, or the configured default when none (or "") is given. */
  function ModelName(model: Option<string>, defaultModel: string): string {
    if model.Some? && model.value != "" then model.value else defaultModel
  }

  /** The messages sent to the model, as written: the window of the session's messages read
      before the new message was saved, cut by `history[:-1]`. */
  function PromptAsWritten(session: Session, message: string, context: string, images: seq<Part>): (r: seq<LlmMessage>)
    ensures |r| >= 2 && r[0].role == "system" && r[|r| - 1] == LlmMessage("user", UserContent(message, images))
    ensures session.messages != [] ==> |r| <= |Window(session.messages)| + 1
  {
    LlmMessages(message, context, images, Window(session.messages))
  }

  /** What the call does after the title step: the events, the saved messages and the request
      to the model, if any. */
  datatype Reply = Reply(events: seq<Event>, saved: seq<Saved>, sent: Option<(string, seq<LlmMessage>)>)

  /** The title set for a session still called "新会话" without messages. */
  function TitleFor(s: Session, message: string): Option<string> {
    if s.title == ServerApp.NewSessionTitle && s.messages == [] then Some(ServerApp.CreateSessionTitle(message)) else None
  }

  /** The user's message saved, the prompt built with the intended history (`Prompt`), the model
      checked and asked. */
  function Answer(s: Session, message: string, model: Option<string>, defaultModel: string, allowed: string -> bool,
                  atts: seq<Attachment>, files: Files, stream: bool, llm: Llm): Reply
  {
    var pieces := Pieces(atts, files);
    var context := Py.Strip(Py.Join("\n\n", pieces.0));
    var messages := Prompt(s, message, context, pieces.1);
    var m := ModelName(model, defaultModel);
    if !allowed(m) then
      Reply([ErrorEvent("Model not allowed: " + m)], [Saved("user", message)], None)
    else if stream then
      var ds := Deltas(llm.chunks(m, messages));
      Reply(ContentEvents(ds), [Saved("user", message), Saved("assistant", Seqs.Concat(ds))], Some((m, messages)))
    else
      var reply := llm.complete(m, messages);
      Reply([ContentEvent(reply)], [Saved("user", message), Saved("assistant", reply)], Some((m, messages)))
  }

  /** `process_chat_message` without raised exceptions, sending the corrected history window
      (`Prompt`, read after the user's message is saved) rather than the window of
      `PromptAsWritten`. An unknown session (or one owned by someone else) gives one error event
      and nothing else. Otherwise the title is set exactly
      for a session still called "新会话" without messages, and then from the message; the user's
      message is saved first in every case, also when the model is refused; a refused model
      yields a single error, and then the model is not asked. */
  function ProcessChat(sessionId: string, session: Option<Session>, message: string, model: Option<string>,
                       defaultModel: string, allowed: string -> bool, atts: seq<Attachment>, files: Files,
                       stream: bool, llm: Llm): (o: ChatOutcome)
    ensures session.None? ==> o == ChatOutcome([ErrorEvent("Session not found: " + sessionId)], None, [], None)
    ensures session.Some? ==>
      && (o.newTitle.Some? <==> session.value.title == ServerApp.NewSessionTitle && session.value.messages == [])
      && (o.newTitle.Some? ==> o.newTitle.value == ServerApp.CreateSessionTitle(message))
    ensures session.Some? ==>
      && o.saved != [] && o.saved[0] == Saved("user", message)
      && (!allowed(ModelName(model, defaultModel)) <==> o.sent.None?)
      && (!allowed(ModelName(model, defaultModel)) ==>
            o.events == [ErrorEvent("Model not allowed: " + ModelName(model, defaultModel))] && |o.saved| == 1)
  {
    if session.None? then ChatOutcome([ErrorEvent("Session not found: " + sessionId)], None, [], None)
    else
      var r := Answer(session.value, message, model, defaultModel, allowed, atts, files, stream, llm);
      ChatOutcome(r.events, TitleFor(session.value, message), r.saved, r.sent)
  }

  /** With an allowed model the call asks that model with the prompt built from the attachments
      and the corrected history window (`Prompt`, not `PromptAsWritten`), ending in the user's
      message, and saves the reply after the user's message: the streamed deltas, which are also
      what the content events carry, or the complete content. */
  lemma ChatReply(sessionId: string, s: Session, message: string, model: Option<string>, defaultModel: string,
                  allowed: string -> bool, atts: seq<Attachment>, files: Files, stream: bool, llm: Llm)
    requires allowed(ModelName(model, defaultModel))
    ensures var o := ProcessChat(sessionId, Some(s), message, model, defaultModel, allowed, atts, files, stream, llm);
      var m := ModelName(model, defaultModel);
      && o.sent.Some? && o.sent.value.0 == m
      && o.sent.value.1 == Prompt(s, message, Py.Strip(Py.Join("\n\n", Pieces(atts, files).0)), Pieces(atts, files).1)
      && o.sent.value.1[|o.sent.value.1| - 1].role == "user"
      && |o.saved| == 2 && o.saved[1].role == "assistant"
      && (stream ==> o.saved[1].content == Seqs.Concat(Deltas(llm.chunks(m, o.sent.value.1)))
                     && (forall i :: 0 <= i < |o.events| ==> o.events[i].ContentEvent? && o.events[i].content != ""))
      && (!stream ==> o.events == [ContentEvent(o.saved[1].content)]
                      && o.saved[1].content == llm.complete(m, o.sent.value.1))
  {
    var m := ModelName(model, defaultModel);
    var pieces := Pieces(atts, files);
    var context := Py.Strip(Py.Join("\n\n", pieces.0));
    var messages := Prompt(s, message, context, pieces.1);
    var r := Answer(s, message, model, defaultModel, allowed, atts, files, stream, llm);
    assert r.sent == Some((m, messages));
    PromptEndsWithUser(s, message, context, pieces.1);
    if stream {
      var ds := Deltas(llm.chunks(m, messages));
      assert r.saved == [Saved("user", message), Saved("assistant", Seqs.Concat(ds))];
      assert r.events == ContentEvents(ds);
      StreamEventsMakeReply(llm.chunks(m, messages));
    }
  }

  /** The prompt ends in the user's message. */
  lemma PromptEndsWithUser(s: Session, message: string, context: string, images: seq<Part>)
    ensures var p := Prompt(s, message, context, images);
      |p| > 0 && p[|p| - 1] == LlmMessage("user", UserContent(message, images))
  {
  }

  /** The model asked for is used, and the configured one only when none is given. */
  lemma ModelChoice(model: Option<string>, defaultModel: string)
    ensures model.Some? && model.value != "" ==> ModelName(model, defaultModel) == model.value
    ensures model.None? || model.value == "" ==> ModelName(model, defaultModel) == defaultModel
  {
  }

  // ---------------------------------------------------------------------------
  // The history cut
  // ---------------------------------------------------------------------------

  /** As written, the session's newest message before this one never reaches the model: the
      history part of the prompt is the window without its last entry. */
  lemma {:induction false} AsWrittenDropsNewest(s: Session, message: string, context: string, images: seq<Part>)
    ensures PromptAsWritten(s, message, context, images) ==
      [LlmMessage("system", Plain(SystemPrompt(context)))] + Turns(DropLast(Window(s.messages)))
        + [LlmMessage("user", UserContent(message, images))]
  {
  }

  /** An exchange "hi" / "hello": as written, the assistant's "hello" is missing from the prompt. */
  lemma AsWrittenLosesReply(message: string)
    ensures var s := Session("旧会话", [HistoryMessage(Some("user"), Some("hi")), HistoryMessage(Some("assistant"), Some("hello"))]);
      PromptAsWritten(s, message, "", []) ==
        [LlmMessage("system", Plain(BasePrompt)), LlmMessage("user", Plain("hi")), LlmMessage("user", Plain(message))]
  {
    var h := [HistoryMessage(Some("user"), Some("hi")), HistoryMessage(Some("assistant"), Some("hello"))];
    assert DropLast(Window(h)) == [h[0]];
    assert [h[0]][1..] == [];
    assert Turns([h[0]]) == [LlmMessage("user", Plain("hi"))];
  }

  /** The history as intended: the window read after the new message was saved, so that
      `history[:-1]` removes exactly that message. */
  function Prompt(s: Session, message: string, context: string, images: seq<Part>): seq<LlmMessage> {
    LlmMessages(message, context, images, Window(s.messages + [HistoryMessage(Some("user"), Some(message))]))
  }

  /** The intended prompt carries the last nine earlier messages, oldest first, then the new one. */
  lemma {:induction false} PromptKeepsRecent(s: Session, message: string, context: string, images: seq<Part>)
    ensures var ms := s.messages; var k := if |ms| > HistoryWindow - 1 then HistoryWindow - 1 else |ms|;
      Prompt(s, message, context, images) ==
        [LlmMessage("system", Plain(SystemPrompt(context)))] + Turns(ms[|ms| - k..])
          + [LlmMessage("user", UserContent(message, images))]
  {
    var ms := s.messages;
    var k := if |ms| > HistoryWindow - 1 then HistoryWindow - 1 else |ms|;
    var all := ms + [HistoryMessage(Some("user"), Some(message))];
    var w := Window(all);
    assert |w| == k + 1;
    assert DropLast(w) == w[..k];
    assert w[..k] == ms[|ms| - k..];
  }

  /** For the same exchange, the intended prompt keeps the assistant's "hello". */
  lemma PromptKeepsReply(message: string)
    ensures var s := Session("旧会话", [HistoryMessage(Some("user"), Some("hi")), HistoryMessage(Some("assistant"), Some("hello"))]);
      Prompt(s, message, "", []) ==
        [LlmMessage("system", Plain(BasePrompt)), LlmMessage("user", Plain("hi")),
         LlmMessage("assistant", Plain("hello")), LlmMessage("user", Plain(message))]
  {
    var h := [HistoryMessage(Some("user"), Some("hi")), HistoryMessage(Some("assistant"), Some("hello"))];
    var s := Session("旧会话", h);
    PromptKeepsRecent(s, message, "", []);
    assert h[|h| - 2..] == h;
    TurnsKeepAll(h);
  }
}
