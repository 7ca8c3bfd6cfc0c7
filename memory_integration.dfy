/** The chat-facing side of long-term memory (backend/app/services/memory_integration_service.py):
    the user-context prompt, the message filter in front of extraction, and the text shown to
    the user. Database reads, the extractor and the store are represented by their results. */
module MemoryIntegration {
  import opened Wrappers
  import Py
  import MemoryService

  /** The rows of `get_user_context`, reduced to the fields the prompt shows. */
  datatype PrefView = PrefView(key: string, category: string, value: string)
  datatype FactView = FactView(subject: string, kind: string, value: string)
  datatype TaskView = TaskView(priority: string, title: string, progress: int)
  datatype RelationView = RelationView(subject: string, relation: string, objectEntity: string)

  datatype UserContext = UserContext(preferences: seq<PrefView>, facts: seq<FactView>,
                                     activeTasks: seq<TaskView>, relations: seq<RelationView>)

  // ---------------------------------------------------------------------------
  // Context prompt
  // ---------------------------------------------------------------------------

  const ContextHeading := "# User Context\n\n"
  const ContextClosing := "\n\nUse this context to personalize your responses and be aware of the user's preferences, background, and ongoing tasks."

  /** The section headings, in prompt order. */
  function SectionHeading(kind: nat): string {
    if kind == 0 then "## User Preferences"
    else if kind == 1 then "## User Information"
    else if kind == 2 then "## Active Tasks"
    else "## Known Relationships"
  }

  function PrefLine(p: PrefView): string {
    "- **" + p.key + "** (" + p.category + "): " + p.value
  }

  function FactLine(f: FactView): string {
    "- **" + f.subject + "** (" + f.kind + "): " + f.value
  }

  /** " (p%)" only for a task that has made progress. */
  function ProgressSuffix(progress: int): string {
    if progress > 0 then " (" + Py.IntToString(progress) + "%)" else ""
  }

  function TaskLine(t: TaskView): string {
    "- [" + Py.Upper(t.priority) + "] " + t.title + ProgressSuffix(t.progress)
  }

  function RelationLine(r: RelationView): string {
    "- " + r.subject + " " + r.relation + " " + r.objectEntity
  }

  /** A task line ends with its progress exactly when the progress is positive, and always
      opens with the upper-cased priority. */
  lemma TaskLineShape(t: TaskView)
    ensures Py.StartsWith(TaskLine(t), "- [" + Py.Upper(t.priority) + "] ")
    ensures t.progress > 0 ==> Py.EndsWith(TaskLine(t), " (" + Py.IntToString(t.progress) + "%)")
    ensures t.progress <= 0 ==> TaskLine(t) == "- [" + Py.Upper(t.priority) + "] " + t.title
  {
    var head := "- [" + Py.Upper(t.priority) + "] ";
    assert TaskLine(t) == head + (t.title + ProgressSuffix(t.progress));
    assert TaskLine(t)[..|head|] == head;
    if t.progress > 0 {
      var suffix := " (" + Py.IntToString(t.progress) + "%)";
      assert TaskLine(t) == (head + t.title) + suffix;
      assert TaskLine(t)[|TaskLine(t)| - |suffix|..] == suffix;
    }
  }

  /** How many entries a kind has. */
  function KindSize(ctx: UserContext, kind: nat): nat {
    if kind == 0 then |ctx.preferences|
    else if kind == 1 then |ctx.facts|
    else if kind == 2 then |ctx.activeTasks|
    else if kind == 3 then |ctx.relations|
    else 0
  }

  /** `[kind]` when the kind has entries. */
  function KindBlock(ctx: UserContext, kind: nat): seq<nat> {
    if KindSize(ctx, kind) == 0 then [] else [kind]
  }

  /** The kinds that have entries, in prompt order. */
  function PresentKinds(ctx: UserContext): seq<nat> {
    KindBlock(ctx, 0) + KindBlock(ctx, 1) + KindBlock(ctx, 2) + KindBlock(ctx, 3)
  }

  /** Exactly the kinds with entries, each once, in increasing order. */
  lemma PresentKindsFacts(ctx: UserContext)
    ensures forall i, j :: 0 <= i < j < |PresentKinds(ctx)| ==> PresentKinds(ctx)[i] < PresentKinds(ctx)[j]
    ensures forall k :: k in PresentKinds(ctx) <==> k < 4 && KindSize(ctx, k) > 0
  {
  }

  /** The lines of one kind's section, heading first. */
  function SectionLines(ctx: UserContext, kind: nat): (lines: seq<string>)
    ensures |lines| == KindSize(ctx, kind) + 1 && lines[0] == SectionHeading(kind)
  {
    [SectionHeading(kind)] +
    (if kind == 0 then Lines(ctx.preferences, PrefLine)
     else if kind == 1 then Lines(ctx.facts, FactLine)
     else if kind == 2 then Lines(ctx.activeTasks, TaskLine)
     else if kind == 3 then Lines(ctx.relations, RelationLine)
     else [])
  }

  /** One line per item, in order. */
  function Lines<T>(items: seq<T>, line: T -> string): (r: seq<string>)
    ensures |r| == |items| && forall i :: 0 <= i < |items| ==> r[i] == line(items[i])
  {
    seq(|items|, i requires 0 <= i < |items| => line(items[i]))
  }

  /** The `for item in items: lines.append(...)` loop. */
  method AppendLines<T>(lines0: seq<string>, items: seq<T>, line: T -> string) returns (lines: seq<string>)
    ensures lines == lines0 + Lines(items, line)
  {
    lines := lines0;
    for i := 0 to |items|
      invariant lines == lines0 + Lines(items, line)[..i]
    {
      assert Lines(items, line)[..i + 1] == Lines(items, line)[..i] + [line(items[i])];
      lines := lines + [line(items[i])];
    }
  }

  function Section(ctx: UserContext, kind: nat): string {
    Py.Join("\n", SectionLines(ctx, kind))
  }

  /** A kind's contribution to the `sections` list: nothing, or its section. */
  function Block(ctx: UserContext, kind: nat): seq<string> {
    if KindSize(ctx, kind) == 0 then [] else [Section(ctx, kind)]
  }

  /** The `sections` list. */
  function Sections(ctx: UserContext): seq<string> {
    Block(ctx, 0) + Block(ctx, 1) + Block(ctx, 2) + Block(ctx, 3)
  }

  function SectionsOf(ctx: UserContext, ks: seq<nat>): (r: seq<string>)
    ensures |r| == |ks| && forall i :: 0 <= i < |ks| ==> r[i] == Section(ctx, ks[i])
  {
    seq(|ks|, i requires 0 <= i < |ks| => Section(ctx, ks[i]))
  }

  lemma SectionsOfAppend(ctx: UserContext, a: seq<nat>, b: seq<nat>)
    ensures SectionsOf(ctx, a + b) == SectionsOf(ctx, a) + SectionsOf(ctx, b)
  {
  }

  /** One section per kind with entries, in prompt order. */
  lemma SectionsByKind(ctx: UserContext)
    ensures Sections(ctx) == SectionsOf(ctx, PresentKinds(ctx))
  {
    var k0, k1, k2, k3 := KindBlock(ctx, 0), KindBlock(ctx, 1), KindBlock(ctx, 2), KindBlock(ctx, 3);
    assert Block(ctx, 0) == SectionsOf(ctx, k0);
    assert Block(ctx, 1) == SectionsOf(ctx, k1);
    assert Block(ctx, 2) == SectionsOf(ctx, k2);
    assert Block(ctx, 3) == SectionsOf(ctx, k3);
    SectionsOfAppend(ctx, k0, k1);
    SectionsOfAppend(ctx, k0 + k1, k2);
    SectionsOfAppend(ctx, k0 + k1 + k2, k3);
  }

  /** Every section opens with its own heading. */
  lemma SectionOpens(ctx: UserContext, kind: nat)
    ensures Py.StartsWith(Section(ctx, kind), SectionHeading(kind))
  {
    Py.JoinStarts("\n", SectionLines(ctx, kind));
  }

  /** `build_memory_context_prompt`'s result; `None` is a failed context read. The prompt is
      empty exactly when the read failed or every kind is empty; otherwise it is framed by the
      heading and the closing sentence and opens with the section of the first kind that has
      entries. */
  function ContextPrompt(context: Option<UserContext>): (r: string)
    ensures r == "" <==> context.None? || PresentKinds(context.value) == []
    ensures context.Some? && PresentKinds(context.value) != [] ==>
      Py.StartsWith(r, ContextHeading + SectionHeading(PresentKinds(context.value)[0])) &&
      Py.EndsWith(r, ContextClosing)
  {
    if context.None? then ""
    else
      var parts := Sections(context.value);
      SectionsByKind(context.value);
      if parts == [] then ""
      else
        ContextFraming(context.value);
        ContextHeading + Py.Join("\n\n", parts) + ContextClosing
  }

  /** The framed sections open with the heading of the first kind with entries. */
  lemma ContextFraming(ctx: UserContext)
    requires PresentKinds(ctx) != []
    ensures var t := ContextHeading + Py.Join("\n\n", Sections(ctx)) + ContextClosing;
      Py.StartsWith(t, ContextHeading + SectionHeading(PresentKinds(ctx)[0])) && Py.EndsWith(t, ContextClosing)
  {
    SectionsByKind(ctx);
    var parts := Sections(ctx);
    var body := Py.Join("\n\n", parts);
    var h := SectionHeading(PresentKinds(ctx)[0]);
    Py.JoinStarts("\n\n", parts);
    SectionOpens(ctx, PresentKinds(ctx)[0]);
    PrefixedStarts(ContextHeading, body, h);
    Py.StartsWithAppend(ContextHeading + body, ContextClosing, ContextHeading + h);
    Py.EndsWithAppend(ContextHeading + body, ContextClosing);
  }

  lemma PrefixedStarts(head: string, body: string, p: string)
    requires Py.StartsWith(body, p)
    ensures Py.StartsWith(head + body, head + p)
  {
    assert (head + body)[..|head + p|] == head + body[..|p|];
  }

  /** One kind's block of `build_memory_context_prompt`: nothing for an empty kind, else
      the heading and one line per entry joined into a section. */
  method AddSection<T>(sections: seq<string>, heading: string, items: seq<T>, line: T -> string) returns (sections': seq<string>)
    ensures sections' == sections + (if items == [] then [] else [Py.Join("\n", [heading] + Lines(items, line))])
  {
    sections' := sections;
    if items != [] {
      var lines := AppendLines([heading], items, line);
      sections' := sections' + [Py.Join("\n", lines)];
    }
  }

  /** `build_memory_context_prompt` */
  method BuildMemoryContextPrompt(context: Option<UserContext>) returns (prompt: string)
    ensures prompt == ContextPrompt(context)
  {
    if context.None? {
      return "";
    }
    var ctx := context.value;
    var sections: seq<string> := [];
    sections := AddSection(sections, "## User Preferences", ctx.preferences, PrefLine);
    assert sections == Block(ctx, 0);
    sections := AddSection(sections, "## User Information", ctx.facts, FactLine);
    assert sections == Block(ctx, 0) + Block(ctx, 1);
    sections := AddSection(sections, "## Active Tasks", ctx.activeTasks, TaskLine);
    assert sections == Block(ctx, 0) + Block(ctx, 1) + Block(ctx, 2);
    sections := AddSection(sections, "## Known Relationships", ctx.relations, RelationLine);
    assert sections == Sections(ctx);
    if sections != [] {
      prompt := "# User Context\n\n";
      prompt := prompt + Py.Join("\n\n", sections);
      prompt := prompt + ContextClosing;
    } else {
      prompt := "";
    }
  }

  // ---------------------------------------------------------------------------
  // Extraction from recent history
  // ---------------------------------------------------------------------------

  /** A stored message; a `None` content reads as "". */
  datatype StoredMessage = StoredMessage(role: string, content: string)

  predicate Extractable(m: StoredMessage) {
    (m.role == "user" || m.role == "assistant") && m.content != []
  }

  function Extractables(ms: seq<StoredMessage>): (r: seq<StoredMessage>)
    ensures |r| <= |ms|
    ensures forall m :: m in r <==> m in ms && Extractable(m)
  {
    if ms == [] then []
    else
      var r := Extractables(ms[..|ms| - 1]);
      assert ms == ms[..|ms| - 1] + [ms[|ms| - 1]];
      if Extractable(ms[|ms| - 1]) then r + [ms[|ms| - 1]] else r
  }

  /** The messages handed to the extractor: the user and assistant messages with content
      among `messages[-max_messages:]`. */
  function RecentForExtraction(messages: seq<StoredMessage>, maxMessages: int): seq<StoredMessage> {
    Extractables(Py.Drop(messages, -maxMessages))
  }

  method FormatRecent(messages: seq<StoredMessage>, maxMessages: int) returns (formatted: seq<StoredMessage>)
    ensures formatted == RecentForExtraction(messages, maxMessages)
  {
    var window := Py.Drop(messages, -maxMessages);
    formatted := [];
    for i := 0 to |window|
      invariant formatted == Extractables(window[..i])
    {
      assert window[..i + 1][..i] == window[..i];
      var msg := window[i];
      if (msg.role == "user" || msg.role == "assistant") && msg.content != [] {
        formatted := formatted + [msg];
      }
    }
    assert window[..|window|] == window;
  }

  /** For a positive limit the extractor sees at most that many messages, all of them user or
      assistant messages with content, taken from the last `maxMessages`; every such message
      among the last `maxMessages` is seen. */
  lemma RecentFacts(messages: seq<StoredMessage>, maxMessages: int)
    ensures maxMessages >= 1 ==> |RecentForExtraction(messages, maxMessages)| <= maxMessages
    ensures maxMessages >= 1 ==> forall m :: m in RecentForExtraction(messages, maxMessages) <==>
      Extractable(m) && m in messages[|messages| - (if |messages| < maxMessages then |messages| else maxMessages)..]
    ensures maxMessages == 0 ==> RecentForExtraction(messages, maxMessages) == Extractables(messages)
  {
    if maxMessages >= 0 {
      Py.DropNegative(messages, maxMessages);
    }
  }

  datatype Counts = Counts(preferences: nat, facts: nat, tasks: nat, relations: nat, error: Option<string>)

  const NoCounts := Counts(0, 0, 0, 0, None)

  function CountsOf(c: MemoryService.Counts): Counts {
    Counts(c.preferences, c.facts, c.tasks, c.relations, None)
  }

  /** `extract_from_recent_messages`: with fewer than two usable messages nothing is
      extracted; `store` is extraction plus storage of the usable messages, `Err` when it
      raises, which also yields zero counts. Too little history means zero counts whatever the
      store would have done; otherwise the counts are those of storing exactly the usable recent
      messages. */
  function ExtractFromRecent(messages: seq<StoredMessage>, maxMessages: int,
                             store: seq<StoredMessage> -> Result<MemoryService.Counts, string>): (r: Counts)
    ensures |RecentForExtraction(messages, maxMessages)| < 2 ==> r == NoCounts
    ensures |RecentForExtraction(messages, maxMessages)| >= 2 && store(RecentForExtraction(messages, maxMessages)).Ok? ==>
      r == CountsOf(store(RecentForExtraction(messages, maxMessages)).value)
    ensures store(RecentForExtraction(messages, maxMessages)).Err? ==> r == NoCounts
    ensures r.error.None?
  {
    var formatted := RecentForExtraction(messages, maxMessages);
    if |formatted| < 2 then NoCounts
    else
      match store(formatted)
      case Ok(c) => CountsOf(c)
      case Err(_) => NoCounts
  }

  /** What `extract_and_store_memories` reports: `{"status": "background"}` when the work is
      handed off, the stored counts, or zero counts with the error text. */
  datatype Report = Background | Stored(counts: Counts)

  function ExtractAndStore(background: bool, outcome: Result<MemoryService.Counts, string>): (r: Report)
    ensures r.Background? <==> background
    ensures !background && outcome.Err? ==>
      r.counts == Counts(0, 0, 0, 0, Some(outcome.error))
    ensures !background && outcome.Ok? ==>
      r.counts == Counts(outcome.value.preferences, outcome.value.facts, outcome.value.tasks, outcome.value.relations, None)
  {
    if background then Background
    else
      match outcome
      case Ok(c) => Stored(CountsOf(c))
      case Err(e) => Stored(Counts(0, 0, 0, 0, Some(e)))
  }

  // ---------------------------------------------------------------------------
  // Display
  // ---------------------------------------------------------------------------

  datatype TaskSummary = TaskSummary(title: string, status: string, priority: string)

  const NoMemories := "No memories stored yet."

  function DisplayGroup<T>(heading: string, items: seq<T>, line: T -> string): (lines: seq<string>)
    ensures items == [] ==> lines == []
    ensures items != [] ==> |lines| == |items| + 1 && lines[0] == heading
  {
    if items == [] then [] else [heading] + Lines(items, line)
  }

  function PrefDisplay(p: PrefView): string { "  - " + p.key + ": " + p.value }
  function FactDisplay(f: FactView): string { "  - " + f.subject + ": " + f.value }
  function TaskDisplay(t: TaskSummary): string { "  - [" + t.priority + "] " + t.title }
  function RelationDisplay(r: RelationView): string { "  - " + r.subject + " " + r.relation + " " + r.objectEntity }

  function DisplayLines(prefs: seq<PrefView>, facts: seq<FactView>, tasks: seq<TaskSummary>, rels: seq<RelationView>): (lines: seq<string>)
    ensures |lines| ==
      |prefs| + |facts| + |tasks| + |rels| +
      (if prefs != [] then 1 else 0) + (if facts != [] then 1 else 0) + (if tasks != [] then 1 else 0) + (if rels != [] then 1 else 0)
  {
    DisplayGroup("**Your Preferences:**", prefs, PrefDisplay) +
    DisplayGroup("\n**About You:**", facts, FactDisplay) +
    DisplayGroup("\n**Your Active Tasks:**", tasks, TaskDisplay) +
    DisplayGroup("\n**Known Relationships:**", rels, RelationDisplay)
  }

  /** `format_memories_for_display`. The placeholder appears exactly when every group is empty;
      otherwise the text opens with the heading of the first non-empty group. */
  function Display(prefs: seq<PrefView>, facts: seq<FactView>, tasks: seq<TaskSummary>, rels: seq<RelationView>): (r: string)
    ensures r == NoMemories <==> prefs == [] && facts == [] && tasks == [] && rels == []
    ensures prefs != [] ==> Py.StartsWith(r, "**Your Preferences:**")
  {
    var lines := DisplayLines(prefs, facts, tasks, rels);
    if lines == [] then NoMemories
    else
      JoinedLines(prefs, facts, tasks, rels);
      Py.Join("\n", lines)
  }

  /** The joined lines open with the first group's heading, so never with the placeholder's "N". */
  lemma JoinedLines(prefs: seq<PrefView>, facts: seq<FactView>, tasks: seq<TaskSummary>, rels: seq<RelationView>)
    requires DisplayLines(prefs, facts, tasks, rels) != []
    ensures Py.Join("\n", DisplayLines(prefs, facts, tasks, rels)) != NoMemories
    ensures prefs != [] ==> Py.StartsWith(Py.Join("\n", DisplayLines(prefs, facts, tasks, rels)), "**Your Preferences:**")
  {
    var lines := DisplayLines(prefs, facts, tasks, rels);
    Py.JoinStarts("\n", lines);
    var first := lines[0];
    assert first[0] == '*' || first[0] == '\n' by {
      if prefs != [] {
        assert first == "**Your Preferences:**";
      } else if facts != [] {
        assert first == "\n**About You:**";
      } else if tasks != [] {
        assert first == "\n**Your Active Tasks:**";
      } else {
        assert first == "\n**Known Relationships:**";
      }
    }
    assert Py.Join("\n", lines)[0] == first[0];
    assert NoMemories[0] == 'N';
  }

  /** One group of `format_memories_for_display`. */
  method AddGroup<T>(lines: seq<string>, heading: string, items: seq<T>, line: T -> string) returns (lines': seq<string>)
    ensures lines' == lines + DisplayGroup(heading, items, line)
  {
    lines' := lines;
    if items != [] {
      lines' := AppendLines(lines' + [heading], items, line);
    }
  }

  /** `format_memories_for_display` */
  method FormatMemoriesForDisplay(prefs: seq<PrefView>, facts: seq<FactView>, tasks: seq<TaskSummary>, rels: seq<RelationView>)
    returns (text: string)
    ensures text == Display(prefs, facts, tasks, rels)
  {
    var lines: seq<string> := [];
    lines := AddGroup(lines, "**Your Preferences:**", prefs, PrefDisplay);
    lines := AddGroup(lines, "\n**About You:**", facts, FactDisplay);
    lines := AddGroup(lines, "\n**Your Active Tasks:**", tasks, TaskDisplay);
    lines := AddGroup(lines, "\n**Known Relationships:**", rels, RelationDisplay);
    assert lines == DisplayLines(prefs, facts, tasks, rels);
    text := if lines != [] then Py.Join("\n", lines) else NoMemories;
  }
}
