/** The agent's memory facade (backend/agent/memory/manager.py): recording conversation
    messages into the short-term store and assembling the memory context that is handed to
    the model. The short-term store is `MemoryStore.ShortTermMemory`; what episodic recall and
    semantic retrieval return is passed in. */
module AgentMemory {
  import opened Wrappers
  import Py
  import MemoryStore

  const KnowledgeHeading: string := "相关知识:"
  const EpisodesHeading: string := "相关历史:"
  const RecentHeading: string := "当前对话:"

  /** The default of `context_max_chars`. */
  const DefaultContextMaxChars: int := 4000

  /** A recalled episode as the context shows it: its summary, else its type. */
  datatype EpisodeItem = EpisodeItem(summary: Option<string>, kind: string)

  /** `item.get('summary') or item.get('type')`: a missing or empty summary falls back to the
      type. */
  function EpisodeLabel(e: EpisodeItem): (shown: string)
    ensures e.summary.Some? && e.summary.value != [] ==> shown == e.summary.value
    ensures e.summary.None? || e.summary.value == [] ==> shown == e.kind
  {
    if e.summary.Some? && e.summary.value != [] then e.summary.value else e.kind
  }

  function KnowledgeLines(knowledge: seq<string>): (lines: seq<string>)
    ensures |lines| == |knowledge|
    ensures forall i :: 0 <= i < |knowledge| ==> lines[i] == "- " + knowledge[i]
  {
    if knowledge == [] then [] else ["- " + knowledge[0]] + KnowledgeLines(knowledge[1..])
  }

  function EpisodeLines(episodes: seq<EpisodeItem>): (lines: seq<string>)
    ensures |lines| == |episodes|
    ensures forall i :: 0 <= i < |episodes| ==> lines[i] == "- " + EpisodeLabel(episodes[i])
  {
    if episodes == [] then [] else ["- " + EpisodeLabel(episodes[0])] + EpisodeLines(episodes[1..])
  }

  function RecentLines(recent: seq<MemoryStore.Message>): (lines: seq<string>)
    ensures |lines| == |recent|
    ensures forall i :: 0 <= i < |recent| ==> lines[i] == recent[i].role + ": " + recent[i].content
  {
    if recent == [] then [] else [recent[0].role + ": " + recent[0].content] + RecentLines(recent[1..])
  }

  function KnowledgeSection(knowledge: seq<string>): string {
    KnowledgeHeading + "\n" + Py.Join("\n", KnowledgeLines(knowledge))
  }

  function EpisodesSection(episodes: seq<EpisodeItem>): string {
    EpisodesHeading + "\n" + Py.Join("\n", EpisodeLines(episodes))
  }

  function RecentSection(recent: seq<MemoryStore.Message>): string {
    RecentHeading + "\n" + Py.Join("\n", RecentLines(recent))
  }

  /** Which heading a section opens with: 0 knowledge, 1 history, 2 conversation, 3 none. */
  function HeadingRank(section: string): nat {
    if Py.StartsWith(section, KnowledgeHeading) then 0
    else if Py.StartsWith(section, EpisodesHeading) then 1
    else if Py.StartsWith(section, RecentHeading) then 2
    else 3
  }

  function HeadingOf(rank: nat): string {
    if rank == 0 then KnowledgeHeading else if rank == 1 then EpisodesHeading else RecentHeading
  }

  /** The parts list of `build_context`: one section per non-empty source, in the order
      knowledge, history, current conversation. */
  function Sections(knowledge: seq<string>, episodes: seq<EpisodeItem>, recent: seq<MemoryStore.Message>): (parts: seq<string>)
    ensures |parts| == (if knowledge != [] then 1 else 0) + (if episodes != [] then 1 else 0) + (if recent != [] then 1 else 0)
    ensures forall i :: 0 <= i < |parts| ==> HeadingRank(parts[i]) < 3 && Py.StartsWith(parts[i], HeadingOf(HeadingRank(parts[i])))
    ensures forall i, j :: 0 <= i < j < |parts| ==> HeadingRank(parts[i]) < HeadingRank(parts[j])
    ensures knowledge != [] ==> parts[0] == KnowledgeSection(knowledge)
    ensures knowledge == [] && episodes != [] ==> parts[0] == EpisodesSection(episodes)
    ensures knowledge == [] && episodes == [] && recent != [] ==> parts[0] == RecentSection(recent)
  {
    SectionRanks(knowledge, episodes, recent);
    (if knowledge != [] then [KnowledgeSection(knowledge)] else []) +
    (if episodes != [] then [EpisodesSection(episodes)] else []) +
    (if recent != [] then [RecentSection(recent)] else [])
  }

  /** Each section opens with its own heading and with no other. */
  lemma SectionRanks(knowledge: seq<string>, episodes: seq<EpisodeItem>, recent: seq<MemoryStore.Message>)
    ensures HeadingRank(KnowledgeSection(knowledge)) == 0
    ensures HeadingRank(EpisodesSection(episodes)) == 1
    ensures HeadingRank(RecentSection(recent)) == 2
  {
    var k := KnowledgeSection(knowledge);
    var e := EpisodesSection(episodes);
    var r := RecentSection(recent);
    assert k[..5] == KnowledgeHeading;
    assert e[..5] == EpisodesHeading;
    assert e[2] != KnowledgeHeading[2];
    assert r[..5] == RecentHeading;
    assert r[0] != KnowledgeHeading[0] && r[0] != EpisodesHeading[0];
  }

  /** The joined, stripped context before the length cap. */
  function Body(knowledge: seq<string>, episodes: seq<EpisodeItem>, recent: seq<MemoryStore.Message>): string {
    Py.Strip(Py.Join("\n\n", Sections(knowledge, episodes, recent)))
  }

  /** The loop of `build_context` that appends one section per non-empty source. */
  method CollectSections(knowledge: seq<string>, episodes: seq<EpisodeItem>, recent: seq<MemoryStore.Message>)
    returns (parts: seq<string>)
    ensures parts == Sections(knowledge, episodes, recent)
  {
    parts := [];
    if knowledge != [] {
      parts := parts + [KnowledgeHeading + "\n" + Py.Join("\n", KnowledgeLines(knowledge))];
    }
    if episodes != [] {
      parts := parts + [EpisodesHeading + "\n" + Py.Join("\n", EpisodeLines(episodes))];
    }
    if recent != [] {
      parts := parts + [RecentHeading + "\n" + Py.Join("\n", RecentLines(recent))];
    }
  }

  /** `build_context`'s result: the body, cut to `maxChars` characters plus "..." when it is
      longer than that. */
  function Context(knowledge: seq<string>, episodes: seq<EpisodeItem>, recent: seq<MemoryStore.Message>, maxChars: int): string {
    Cap(Body(knowledge, episodes, recent), maxChars)
  }

  /** `context[:max] + "..."` for a text longer than `max`. */
  function Cap(text: string, maxChars: int): string {
    if |text| > maxChars then Py.Take(text, maxChars) + "..." else text
  }

  /** The cap keeps every prefix that fits within it. */
  lemma CapKeepsPrefix(text: string, p: string, maxChars: int)
    requires Py.StartsWith(text, p) && |p| <= maxChars
    ensures Py.StartsWith(Cap(text, maxChars), p)
  {
    if |text| > maxChars {
      assert (text[..maxChars] + "...")[..|p|] == text[..|p|];
    }
  }

  /** With no knowledge, no history and no conversation the context is empty, except that a
      negative cap still appends "..." to the empty body. */
  lemma ContextEmpty(recent: seq<MemoryStore.Message>, maxChars: int)
    requires recent == []
    ensures Context([], [], recent, maxChars) == (if maxChars < 0 then "..." else "")
  {
    assert Sections([], [], recent) == [];
    assert Py.Join("\n\n", []) == "";
  }

  /** The cap: a context is never longer than `maxChars + 3`, and a body within the cap is
      returned unchanged. */
  lemma ContextBound(knowledge: seq<string>, episodes: seq<EpisodeItem>, recent: seq<MemoryStore.Message>, maxChars: int)
    ensures maxChars >= 0 ==> |Context(knowledge, episodes, recent, maxChars)| <= maxChars + 3
    ensures |Body(knowledge, episodes, recent)| <= maxChars ==> Context(knowledge, episodes, recent, maxChars) == Body(knowledge, episodes, recent)
    ensures |Body(knowledge, episodes, recent)| > maxChars >= 0 ==>
      Context(knowledge, episodes, recent, maxChars) == Body(knowledge, episodes, recent)[..maxChars] + "..."
  {
    CapBound(Body(knowledge, episodes, recent), maxChars);
  }

  lemma CapBound(text: string, maxChars: int)
    ensures maxChars >= 0 ==> |Cap(text, maxChars)| <= maxChars + 3
    ensures |text| <= maxChars ==> Cap(text, maxChars) == text
    ensures |text| > maxChars >= 0 ==> Cap(text, maxChars) == text[..maxChars] + "..."
  {
  }

  /** The heading of the first source that has something to say. */
  function FirstHeading(knowledge: seq<string>, episodes: seq<EpisodeItem>): string {
    if knowledge != [] then KnowledgeHeading else if episodes != [] then EpisodesHeading else RecentHeading
  }

  /** The body opens with the heading of the first non-empty source. */
  lemma {:induction false} BodyOpensWithHeading(knowledge: seq<string>, episodes: seq<EpisodeItem>, recent: seq<MemoryStore.Message>)
    requires knowledge != [] || episodes != [] || recent != []
    ensures Py.StartsWith(Body(knowledge, episodes, recent), FirstHeading(knowledge, episodes))
  {
    var parts := Sections(knowledge, episodes, recent);
    var h := FirstHeading(knowledge, episodes);
    assert |h| == 5;
    assert parts[0][..5] == h;
    var j := Py.Join("\n\n", parts);
    Py.JoinStarts("\n\n", parts);
    assert j[..5] == parts[0][..5];
    Py.StripKeepsPrefix(j, h);
  }

  /** Unless the cap is shorter than a heading, the context opens with the heading of the
      first source that has something to say. */
  lemma ContextOpensWithHeading(knowledge: seq<string>, episodes: seq<EpisodeItem>, recent: seq<MemoryStore.Message>, maxChars: int)
    requires knowledge != [] || episodes != [] || recent != []
    requires maxChars >= 5
    ensures Py.StartsWith(Context(knowledge, episodes, recent, maxChars), FirstHeading(knowledge, episodes))
  {
    BodyOpensWithHeading(knowledge, episodes, recent);
    CapKeepsPrefix(Body(knowledge, episodes, recent), FirstHeading(knowledge, episodes), maxChars);
  }

  /** `MemoryManager`: the agent-side memory facade over a short-term store. */
  class MemoryManager {
    const shortTerm: MemoryStore.ShortTermMemory
    const contextMaxChars: int

    constructor(shortTerm: MemoryStore.ShortTermMemory, contextMaxChars: int)
      ensures this.shortTerm == shortTerm && this.contextMaxChars == contextMaxChars
    {
      this.shortTerm := shortTerm;
      this.contextMaxChars := contextMaxChars;
    }

    /** `record_message`: forwards exactly one `{role, content}` message to the short-term
        store. */
    method RecordMessage(sessionId: string, role: string, content: string, now: int)
      modifies shortTerm
      ensures var pruned := old(shortTerm.store) - MemoryStore.Expired(old(shortTerm.updatedAt), now, shortTerm.ttl);
        var previous := if sessionId in pruned then pruned[sessionId] else [];
        shortTerm.store == pruned[sessionId := MemoryStore.Window(previous + [MemoryStore.Message(role, content)], shortTerm.windowSize)]
      ensures shortTerm.updatedAt == (old(shortTerm.updatedAt) - MemoryStore.Expired(old(shortTerm.updatedAt), now, shortTerm.ttl))[sessionId := now]
      ensures old(shortTerm.Valid()) ==> shortTerm.Valid()
    {
      shortTerm.AddMessage(sessionId, MemoryStore.Message(role, content), now);
    }

    /** `build_context`: reads the session's recent messages (which prunes idle sessions) and
        assembles the context from them and from the recalled episodes and knowledge. */
    method BuildContext(sessionId: string, episodes: seq<EpisodeItem>, knowledge: seq<string>, now: int)
      returns (context: string)
      modifies shortTerm
      ensures var pruned := old(shortTerm.store) - MemoryStore.Expired(old(shortTerm.updatedAt), now, shortTerm.ttl);
        context == Context(knowledge, episodes, if sessionId in pruned then pruned[sessionId] else [], contextMaxChars)
      ensures shortTerm.store == old(shortTerm.store) - MemoryStore.Expired(old(shortTerm.updatedAt), now, shortTerm.ttl)
      ensures shortTerm.updatedAt == old(shortTerm.updatedAt) - MemoryStore.Expired(old(shortTerm.updatedAt), now, shortTerm.ttl)
    {
      var recent := shortTerm.GetContext(sessionId, now);
      var parts := CollectSections(knowledge, episodes, recent);
      context := Py.Strip(Py.Join("\n\n", parts));
      if |context| > contextMaxChars {
        context := Py.Take(context, contextMaxChars) + "...";
      }
    }
  }
}
