/** The prompt builders of backend/agent/prompts/system_prompts.py: the paths, attachment and
    memory variants of the system prompt, and the extra system prompt that joins the optional
    sections. `textwrap.dedent` over the f-string templates is taken as inserting each context as
    it is, which it does for a context on a single line. */
module SystemPrompts {
  import Py
  import Seqs

  /** `BASE_SYSTEM_PROMPT` after `dedent` and `strip`: its first line, the lines between, and its
      last line. */
  const BaseOpening: string := "你是一个专业的 macOS 智能助手，可以帮助我管理系统、排查问题、执行自动化任务。"

  const BaseBody: string :=
    "\n\n"
    + "## 核心能力\n"
    + "- 系统监控：查看系统状态、进程信息、资源使用情况\n"
    + "- 文件管理：搜索、读取、创建、管理文件和目录\n"
    + "- 文本处理：使用grep搜索、正则匹配、日志分析\n"
    + "- 网络诊断：检查网络配置、端口状态、DNS设置\n"
    + "- 应用管理：启动应用、管理已安装程序\n"
    + "- 开发工具：Git操作、端口管理、文件对比\n"
    + "\n"
    + "## 工具使用原则\n"
    + "1. **优先使用已注册工具**：你必须优先使用提供的工具来完成任务\n"
    + "2. **安全第一**：在执行具有潜在风险的操作（如删除文件、修改系统设置）前，请务必仔细确认路径和参数\n"
    + "3. **明确限制**：如果我请求存在安全风险或超出工具能力，直接说明限制并给出可行替代方案\n"
    + "4. **禁止危险操作**：绝不执行会清空系统目录、破坏安全设置或泄露敏感信息的操作\n"
    + "\n"
    + "## 响应规范\n"
    + "- 使用中文回复我\n"
    + "- 提供清晰、准确的信息\n"
    + "- 在执行操作前说明将要做什么\n"
    + "- 操作完成后总结结果\n"
    + "\n"
    + "# 工作原则\n"
    + "- 文件操作：你不清楚当前我的文件夹的具体名称和路径，在操作时需要先了解对应文件夹下的相应文件有哪些，再进行操作\n"
    + "\n"
    + "# 你的回答风格\n"

  const BaseClosing: string := "- 你需要用日常对话的形式来回答我的问题，不使用分点等书面语言，语气自然活泼"

  const BasePrompt: string := BaseOpening + BaseBody + BaseClosing

  lemma BasePromptStripped()
    ensures BasePrompt != [] && Py.IsStripped(BasePrompt)
  {
    assert BaseOpening[0] == '你';
    assert BaseClosing[|BaseClosing| - 1] == '泼';
    assert BasePrompt[0] == BaseOpening[0];
    assert BasePrompt[|BasePrompt| - 1] == BaseClosing[|BaseClosing| - 1];
  }

  // ---------------------------------------------------------------------------
  // The paths variant
  // ---------------------------------------------------------------------------

  const PathsTitle: string := "## 路径访问限制"
  const PathsIntro: string := "我只能访问以下路径："

  /** A two-line header followed by one "- item" line per item, built one line at a time. */
  function Listed(title: string, intro: string, items: seq<string>): (t: string)
    ensures |t| >= |title| + 1 + |intro|
  {
    if items == [] then title + "\n" + intro
    else Listed(title, intro, items[..|items| - 1]) + "\n- " + items[|items| - 1]
  }

  /** `paths_text` after appending one "- path" line per path. */
  function PathsText(paths: seq<string>): string {
    Listed(PathsTitle, PathsIntro, paths)
  }

  /** The prompt `build_system_prompt_with_paths` returns. */
  function PromptWithPaths(paths: seq<string>): string {
    if paths == [] then BasePrompt else Py.Strip(BasePrompt + "\n\n" + PathsText(paths))
  }

  /** `build_system_prompt_with_paths`: the loop that extends the paths text one line at a time. */
  method BuildSystemPromptWithPaths(allowedPaths: seq<string>) returns (prompt: string)
    ensures prompt == PromptWithPaths(allowedPaths)
  {
    if allowedPaths == [] {
      return BasePrompt;
    }
    var pathsText := PathsTitle + "\n" + PathsIntro;
    for i := 0 to |allowedPaths|
      invariant pathsText == PathsText(allowedPaths[..i])
    {
      assert allowedPaths[..i + 1][..i] == allowedPaths[..i];
      pathsText := pathsText + "\n- " + allowedPaths[i];
    }
    assert allowedPaths[..|allowedPaths|] == allowedPaths;
    prompt := Py.Strip(BasePrompt + "\n\n" + pathsText);
  }

  /** The "- item" lines. */
  function ItemLines(items: seq<string>): (lines: seq<string>)
    ensures |lines| == |items|
    ensures forall i :: 0 <= i < |items| ==> lines[i] == "- " + items[i]
  {
    if items == [] then [] else ItemLines(items[..|items| - 1]) + ["- " + items[|items| - 1]]
  }

  /** Joining with one more part at the end. */
  lemma {:induction false} JoinSnoc(sep: string, parts: seq<string>, x: string)
    requires parts != []
    ensures Py.Join(sep, parts + [x]) == Py.Join(sep, parts) + sep + x
  {
    if |parts| == 1 {
      assert parts + [x] == [parts[0]] + [x];
      assert ([parts[0]] + [x])[1..] == [x];
    } else {
      var rest := parts[1..];
      assert (parts + [x])[1..] == rest + [x];
      JoinSnoc(sep, rest, x);
    }
  }

  /** A join ends with its last part. */
  lemma {:induction false} JoinEnds(sep: string, parts: seq<string>)
    requires parts != [] && parts[|parts| - 1] != []
    ensures var j := Py.Join(sep, parts); j != [] && j[|j| - 1] == parts[|parts| - 1][|parts[|parts| - 1]| - 1]
  {
    if |parts| > 1 {
      var rest := parts[1..];
      JoinEnds(sep, rest);
      assert rest[|rest| - 1] == parts[|parts| - 1];
      var j := Py.Join(sep, parts);
      var r := Py.Join(sep, rest);
      assert j == parts[0] + sep + r;
      assert j[|j| - 1] == r[|r| - 1];
    }
  }

  /** Every part of a join is a substring of it. */
  lemma {:induction false} JoinContainsPart(sep: string, parts: seq<string>, k: nat)
    requires k < |parts|
    ensures Py.Contains(Py.Join(sep, parts), parts[k])
  {
    var j := Py.Join(sep, parts);
    if |parts| == 1 {
      assert j == parts[0];
      assert OccursAtStart: Py.OccursAt(j, parts[k], 0) by {
        assert j[..|parts[k]|] == parts[k];
      }
      Py.ContainsAt(j, parts[k], 0);
    } else if k == 0 {
      assert j == parts[0] + (sep + Py.Join(sep, parts[1..]));
      assert j[0..|parts[0]|] == parts[0];
      Py.ContainsAt(j, parts[0], 0);
    } else {
      var rest := parts[1..];
      var r := Py.Join(sep, rest);
      JoinContainsPart(sep, rest, k - 1);
      assert rest[k - 1] == parts[k];
      assert j == parts[0] + sep + r;
      assert j[|parts[0]| + |sep|..|j|] == r;
      Py.ContainsSlice(j, parts[k], |parts[0]| + |sep|, |j|);
    }
  }

  /** The listed text is the header's two lines and one line per item, joined by line breaks. */
  lemma {:induction false} ListedJoin(title: string, intro: string, items: seq<string>)
    ensures Listed(title, intro, items) == Py.Join("\n", [title, intro] + ItemLines(items))
  {
    if items == [] {
      assert [title, intro] + [] == [title, intro];
      assert [title, intro][1..] == [intro];
    } else {
      var init := items[..|items| - 1];
      ListedJoin(title, intro, init);
      var parts := [title, intro] + ItemLines(init);
      JoinSnoc("\n", parts, "- " + items[|items| - 1]);
      assert parts + ["- " + items[|items| - 1]] == [title, intro] + ItemLines(items);
    }
  }

  lemma LineHasNoBreak(item: string)
    requires '\n' !in item
    ensures '\n' !in "- " + item
  {
  }

  /** Without line breaks in the header or the items, the listed text splits back into them. */
  lemma ListedLines(title: string, intro: string, items: seq<string>)
    requires '\n' !in title && '\n' !in intro
    requires forall i :: 0 <= i < |items| ==> '\n' !in items[i]
    ensures Py.Split(Listed(title, intro, items), "\n") == [title, intro] + ItemLines(items)
  {
    var all := [title, intro] + ItemLines(items);
    assert forall k :: 0 <= k < |all| ==> '\n' !in all[k] by {
      forall k | 0 <= k < |all| ensures '\n' !in all[k] {
        if k >= 2 {
          LineHasNoBreak(items[k - 2]);
          assert all[k] == "- " + items[k - 2];
        }
      }
    }
    assert Py.Split(Py.Join("\n", all), "\n") == all by {
      Py.SplitJoin(all, '\n');
    }
    assert Listed(title, intro, items) == Py.Join("\n", all) by {
      ListedJoin(title, intro, items);
    }
  }

  /** Every item is in the listed text, as its own "- item" line. */
  lemma {:induction false} ListedHas(title: string, intro: string, items: seq<string>, i: nat) returns (j: nat)
    requires i < |items|
    ensures j + 3 + |items[i]| <= |Listed(title, intro, items)|
    ensures Listed(title, intro, items)[j..j + 3 + |items[i]|] == "\n- " + items[i]
  {
    var init := items[..|items| - 1];
    var t := Listed(title, intro, items);
    var u := Listed(title, intro, init);
    var line := "\n- " + items[|items| - 1];
    assert t == u + line;
    if i == |items| - 1 {
      j := |u|;
      assert t[j..j + 3 + |items[i]|] == line;
    } else {
      assert init[i] == items[i];
      j := ListedHas(title, intro, init, i);
      assert t[j..j + 3 + |items[i]|] == u[j..j + 3 + |items[i]|];
    }
  }

  /** A stripped, non-empty prefix, a blank line and a listed text ending in a visible character
      are left alone by `strip`, and every item is in the result. */
  lemma {:induction false} StrippedWithList(base: string, title: string, intro: string, items: seq<string>, i: nat)
    requires base != [] && Py.IsStripped(base)
    requires items != [] && items[|items| - 1] != [] && !Py.IsSpace(items[|items| - 1][|items[|items| - 1]| - 1])
    ensures Py.Strip(base + "\n\n" + Listed(title, intro, items)) == base + "\n\n" + Listed(title, intro, items)
    ensures i < |items| ==> Py.Contains(base + "\n\n" + Listed(title, intro, items), items[i])
  {
    var t := Listed(title, intro, items);
    var s := base + "\n\n" + t;
    var last := items[|items| - 1];
    assert t[|t| - 1] == last[|last| - 1];
    assert s[0] == base[0];
    assert s[|s| - 1] == t[|t| - 1];
    Py.StripStripped(s);
    if i < |items| {
      var j := ListedHas(title, intro, items, i);
      var k := |base| + 2 + j + 3;
      assert s[k..k + |items[i]|] == t[j + 3..j + 3 + |items[i]|];
      assert t[j + 3..j + 3 + |items[i]|] == items[i] by {
        assert t[j..j + 3 + |items[i]|][3..] == items[i];
      }
      Py.ContainsAt(s, items[i], k);
    }
  }

  lemma HeaderHasNoBreak()
    ensures '\n' !in PathsTitle && '\n' !in PathsIntro
  {
  }

  /** As long as no path holds a line break, the paths text splits back into the title, the
      introduction and one "- path" line per path, in order. */
  lemma PathsTextLines(paths: seq<string>)
    requires forall i :: 0 <= i < |paths| ==> '\n' !in paths[i]
    ensures Py.Split(PathsText(paths), "\n") == [PathsTitle, PathsIntro] + ItemLines(paths)
  {
    HeaderHasNoBreak();
    ListedLines(PathsTitle, PathsIntro, paths);
  }

  /** With paths whose last one ends in a visible character, the prompt is exactly the base
      prompt, a blank line and the paths text; then each path is in the prompt. */
  lemma PromptWithPathsShape(paths: seq<string>, i: nat)
    requires paths != [] && paths[|paths| - 1] != [] && !Py.IsSpace(paths[|paths| - 1][|paths[|paths| - 1]| - 1])
    ensures PromptWithPaths(paths) == BasePrompt + "\n\n" + PathsText(paths)
    ensures i < |paths| ==> Py.Contains(PromptWithPaths(paths), paths[i])
  {
    BasePromptStripped();
    StrippedWithList(BasePrompt, PathsTitle, PathsIntro, paths, i);
  }

  /** With no paths the base prompt is returned unchanged. */
  lemma NoPathsPrompt()
    ensures PromptWithPaths([]) == BasePrompt
  {
  }

  // ---------------------------------------------------------------------------
  // Sections: attachment, memory, custom instructions
  // ---------------------------------------------------------------------------

  /** The headings of the three optional sections. */
  datatype Headings = Headings(attachment: string, memory: string, custom: string)

  /** The headings the builders use. */
  const Used: Headings := Headings("附件内容", "对话历史摘要", "我自定义指令")

  /** A heading that ends in a visible character, so `strip` cannot eat into it. */
  predicate Visible(h: string) {
    h != [] && !Py.IsSpace(h[|h| - 1])
  }

  predicate AllVisible(hs: Headings) {
    Visible(hs.attachment) && Visible(hs.memory) && Visible(hs.custom)
  }

  lemma UsedVisible()
    ensures AllVisible(Used)
  {
    assert Used.attachment[|Used.attachment| - 1] == '容';
    assert Used.memory[|Used.memory| - 1] == '要';
    assert Used.custom[|Used.custom| - 1] == '令';
  }

  /** A "## heading" line followed by the context, stripped. */
  function Section(heading: string, context: string): (r: string)
    ensures Py.IsStripped(r)
  {
    Py.Strip("## " + heading + "\n" + context)
  }

  /** A section starts with its heading line, whatever the context. */
  lemma SectionStarts(heading: string, context: string)
    requires Visible(heading)
    ensures Py.StartsWith(Section(heading, context), "## " + heading)
    ensures Section(heading, context) != []
  {
    var p := "## " + heading;
    var s := "## " + heading + "\n" + context;
    assert s[..|p|] == p;
    assert p[|p| - 1] == heading[|heading| - 1];
    Py.StripKeepsPrefix(s, p);
  }

  /** With a stripped context the section is the heading line and the context, unchanged. */
  lemma SectionShape(heading: string, context: string)
    requires context != [] && Py.IsStripped(context)
    ensures Section(heading, context) == "## " + heading + "\n" + context
  {
    var s := "## " + heading + "\n" + context;
    assert s[0] == '#';
    assert s[|s| - 1] == context[|context| - 1];
    Py.StripStripped(s);
  }

  /** The prompt the attachment and memory builders return: the base prompt, or the base
      prompt, a blank line and the section. */
  function WithSection(base: string, heading: string, context: string): string {
    if context == "" then base else Py.Strip(base + "\n\n" + Section(heading, context))
  }

  /** `build_system_prompt_with_attachment` */
  function PromptWithAttachment(attachmentContext: string): string {
    WithSection(BasePrompt, Used.attachment, attachmentContext)
  }

  /** `build_system_prompt_with_memory` */
  function PromptWithMemory(memoryContext: string): string {
    WithSection(BasePrompt, Used.memory, memoryContext)
  }

  /** A stripped, non-empty prefix, a blank line and a section: `strip` leaves the heading line
      in place. */
  lemma {:induction false} StrippedWithSection(base: string, heading: string, context: string)
    requires base != [] && Py.IsStripped(base)
    requires Visible(heading)
    ensures Py.StartsWith(Py.Strip(base + "\n\n" + Section(heading, context)), base + "\n\n## " + heading)
  {
    var sec := Section(heading, context);
    SectionStarts(heading, context);
    var s := base + "\n\n" + sec;
    var p := base + "\n\n## " + heading;
    assert s[..|p|] == p by {
      assert sec[..|heading| + 3] == "## " + heading;
    }
    assert p[0] == base[0] && p[|p| - 1] == heading[|heading| - 1];
    Py.StripKeepsPrefix(s, p);
  }

  /** With a stripped context, `strip` leaves the whole prompt alone. */
  lemma {:induction false} StrippedWithStrippedSection(base: string, heading: string, context: string)
    requires base != [] && Py.IsStripped(base)
    requires context != [] && Py.IsStripped(context)
    ensures Py.Strip(base + "\n\n" + Section(heading, context)) == base + "\n\n## " + heading + "\n" + context
  {
    SectionShape(heading, context);
    var s := base + "\n\n## " + heading + "\n" + context;
    assert s[0] == base[0] && s[|s| - 1] == context[|context| - 1];
    Py.StripStripped(s);
  }

  /** An empty context gives the base prompt; any other context puts the heading line right
      after the base prompt and a blank line, and a stripped one follows it unchanged. */
  lemma {:induction false} SectionPrompt(base: string, heading: string, context: string)
    requires base != [] && Py.IsStripped(base)
    requires Visible(heading)
    ensures WithSection(base, heading, "") == base
    ensures context != "" ==> Py.StartsWith(WithSection(base, heading, context), base + "\n\n## " + heading)
    ensures context != "" && Py.IsStripped(context) ==>
      WithSection(base, heading, context) == base + "\n\n## " + heading + "\n" + context
  {
    StrippedWithSection(base, heading, context);
    if context != "" && Py.IsStripped(context) {
      StrippedWithStrippedSection(base, heading, context);
    }
  }

  /** `build_system_prompt_with_attachment` puts its context under "## 附件内容". */
  lemma AttachmentPrompt(context: string)
    ensures PromptWithAttachment("") == BasePrompt
    ensures context != "" ==> Py.StartsWith(PromptWithAttachment(context), BasePrompt + "\n\n## " + Used.attachment)
    ensures context != "" && Py.IsStripped(context) ==>
      PromptWithAttachment(context) == BasePrompt + "\n\n## " + Used.attachment + "\n" + context
  {
    UsedVisible();
    BasePromptStripped();
    SectionPrompt(BasePrompt, Used.attachment, context);
  }

  /** `build_system_prompt_with_memory` puts its context under "## 对话历史摘要". */
  lemma MemoryPrompt(context: string)
    ensures PromptWithMemory("") == BasePrompt
    ensures context != "" ==> Py.StartsWith(PromptWithMemory(context), BasePrompt + "\n\n## " + Used.memory)
    ensures context != "" && Py.IsStripped(context) ==>
      PromptWithMemory(context) == BasePrompt + "\n\n## " + Used.memory + "\n" + context
  {
    UsedVisible();
    BasePromptStripped();
    SectionPrompt(BasePrompt, Used.memory, context);
  }

  // ---------------------------------------------------------------------------
  // The extra system prompt
  // ---------------------------------------------------------------------------

  /** The values `sa`, `sm`, `sc` for those of `a`, `m`, `c` that are not empty, in order. */
  function Parts3(a: string, m: string, c: string, sa: string, sm: string, sc: string): (parts: seq<string>)
    ensures |parts| <= 3
  {
    (if a != "" then [sa] else []) + (if m != "" then [sm] else []) + (if c != "" then [sc] else [])
  }

  /** Where each value sits, and that every element is one of them. */
  lemma Parts3Facts(a: string, m: string, c: string, sa: string, sm: string, sc: string, k: nat)
    ensures var parts := Parts3(a, m, c, sa, sm, sc);
      && (parts == [] <==> a == "" && m == "" && c == "")
      && (a != "" ==> parts[0] == sa)
      && (m != "" ==> parts[if a != "" then 1 else 0] == sm)
      && (c != "" ==> parts[|parts| - 1] == sc)
      && (k < |parts| ==> parts[k] == sa || parts[k] == sm || parts[k] == sc)
  {
  }

  /** The sections the extra prompt holds, in order, for the non-empty arguments. */
  function ExtraParts(a: string, m: string, c: string, hs: Headings): (parts: seq<string>)
    ensures |parts| <= 3
  {
    Parts3(a, m, c, Section(hs.attachment, a), Section(hs.memory, m), Section(hs.custom, c))
  }

  /** `"\n\n".join(parts).strip()` */
  function ExtraPrompt(a: string, m: string, c: string, hs: Headings): string {
    Py.Strip(Py.Join("\n\n", ExtraParts(a, m, c, hs)))
  }

  /** `build_extra_system_prompt`, with the custom-instruction heading its test expects (see
      `CustomHeadingMissesTest` for the heading as written). */
  method BuildExtraSystemPrompt(attachmentContext: string, memoryContext: string, customInstructions: string)
    returns (prompt: string)
    ensures prompt == IntendedExtraPrompt(attachmentContext, memoryContext, customInstructions)
  {
    var parts: seq<string> := [];
    if attachmentContext != "" {
      parts := parts + [Section(Intended.attachment, attachmentContext)];
    }
    ghost var first := parts;
    if memoryContext != "" {
      parts := parts + [Section(Intended.memory, memoryContext)];
    }
    ghost var second := parts;
    if customInstructions != "" {
      parts := parts + [Section(Intended.custom, customInstructions)];
    }
    assert parts == Parts3(attachmentContext, memoryContext, customInstructions,
        Section(Intended.attachment, attachmentContext), Section(Intended.memory, memoryContext),
        Section(Intended.custom, customInstructions)) by {
      assert first == (if attachmentContext != "" then [Section(Intended.attachment, attachmentContext)] else []);
      assert second == first + (if memoryContext != "" then [Section(Intended.memory, memoryContext)] else []);
      assert parts == second + (if customInstructions != "" then [Section(Intended.custom, customInstructions)] else []);
    }
    prompt := Py.Strip(Py.Join("\n\n", parts));
  }

  /** No part is empty and every part is stripped. */
  lemma {:induction false} ExtraPartsFacts(a: string, m: string, c: string, hs: Headings, k: nat)
    requires AllVisible(hs)
    requires k < |ExtraParts(a, m, c, hs)|
    ensures ExtraParts(a, m, c, hs)[k] != [] && Py.IsStripped(ExtraParts(a, m, c, hs)[k])
  {
    Parts3Facts(a, m, c, Section(hs.attachment, a), Section(hs.memory, m), Section(hs.custom, c), k);
    SectionStarts(hs.attachment, a);
    SectionStarts(hs.memory, m);
    SectionStarts(hs.custom, c);
  }

  /** The join of non-empty stripped parts is already stripped. */
  lemma {:induction false} JoinStripped(parts: seq<string>)
    requires forall k :: 0 <= k < |parts| ==> parts[k] != [] && Py.IsStripped(parts[k])
    ensures Py.Strip(Py.Join("\n\n", parts)) == Py.Join("\n\n", parts)
    ensures Py.Join("\n\n", parts) == [] <==> parts == []
  {
    var j := Py.Join("\n\n", parts);
    if parts != [] {
      Py.JoinStarts("\n\n", parts);
      JoinEnds("\n\n", parts);
      assert j[0] == parts[0][0];
    }
    Py.StripStripped(j);
  }

  /** A joined part that is a section makes its heading line a substring of the join. */
  lemma HeadingIn(j: string, parts: seq<string>, k: nat, heading: string, context: string)
    requires k < |parts| && parts[k] == Section(heading, context) && j == Py.Join("\n\n", parts)
    requires Visible(heading)
    ensures Py.Contains(j, "## " + heading)
  {
    JoinContainsPart("\n\n", parts, k);
    SectionStarts(heading, context);
    var p := "## " + heading;
    assert Py.OccursAt(parts[k], p, 0) by {
      assert parts[k][0..|p|] == parts[k][..|p|];
    }
    Py.ContainsAt(parts[k], p, 0);
    Py.ContainsTrans(j, parts[k], p);
  }

  /** The extra prompt is the join of its sections, with nothing stripped away; it is "" exactly
      when all three arguments are empty. */
  lemma ExtraPromptJoin(a: string, m: string, c: string, hs: Headings)
    requires AllVisible(hs)
    ensures ExtraPrompt(a, m, c, hs) == Py.Join("\n\n", ExtraParts(a, m, c, hs))
    ensures ExtraPrompt(a, m, c, hs) == "" <==> a == "" && m == "" && c == ""
  {
    var parts := ExtraParts(a, m, c, hs);
    forall k | 0 <= k < |parts| ensures parts[k] != [] && Py.IsStripped(parts[k]) {
      ExtraPartsFacts(a, m, c, hs, k);
    }
    JoinStripped(parts);
    Parts3Facts(a, m, c, Section(hs.attachment, a), Section(hs.memory, m), Section(hs.custom, c), 0);
  }

  /** Each non-empty argument brings its heading line. */
  lemma ExtraPromptHeadings(a: string, m: string, c: string, hs: Headings)
    requires AllVisible(hs)
    ensures a != "" ==> Py.Contains(ExtraPrompt(a, m, c, hs), "## " + hs.attachment)
    ensures m != "" ==> Py.Contains(ExtraPrompt(a, m, c, hs), "## " + hs.memory)
    ensures c != "" ==> Py.Contains(ExtraPrompt(a, m, c, hs), "## " + hs.custom)
  {
    var parts := ExtraParts(a, m, c, hs);
    var j := Py.Join("\n\n", parts);
    assert ExtraPrompt(a, m, c, hs) == j by {
      ExtraPromptJoin(a, m, c, hs);
    }
    Parts3Facts(a, m, c, Section(hs.attachment, a), Section(hs.memory, m), Section(hs.custom, c), 0);
    if a != "" {
      HeadingIn(j, parts, 0, hs.attachment, a);
    }
    if m != "" {
      var k := if a != "" then 1 else 0;
      HeadingIn(j, parts, k, hs.memory, m);
    }
    if c != "" {
      HeadingIn(j, parts, |parts| - 1, hs.custom, c);
    }
  }

  /** A heading line and its text. */
  function Headed(heading: string, text: string): string {
    "## " + heading + "\n" + text
  }

  /** With all three arguments stripped and non-empty, the sections come in the order
      attachment, memory, custom instructions, separated by blank lines. */
  lemma ExtraPromptOrder(a: string, m: string, c: string, hs: Headings)
    requires a != "" && Py.IsStripped(a) && m != "" && Py.IsStripped(m) && c != "" && Py.IsStripped(c)
    requires AllVisible(hs)
    ensures ExtraPrompt(a, m, c, hs) == Headed(hs.attachment, a) + "\n\n" + Headed(hs.memory, m) + "\n\n" + Headed(hs.custom, c)
  {
    assert ExtraPrompt(a, m, c, hs) == Py.Join("\n\n", ExtraParts(a, m, c, hs)) by {
      ExtraPromptJoin(a, m, c, hs);
    }
    SectionShape(hs.attachment, a);
    SectionShape(hs.memory, m);
    SectionShape(hs.custom, c);
    var sa := Section(hs.attachment, a);
    var sm := Section(hs.memory, m);
    var sc := Section(hs.custom, c);
    assert ExtraParts(a, m, c, hs) == [sa, sm, sc];
    var sep := "\n\n";
    assert Py.Join(sep, [sa, sm, sc]) == (sa + sep) + ((sm + sep) + sc) by {
      assert [sa] + [sm, sc] == [sa, sm, sc] && [sm] + [sc] == [sm, sc];
      Py.JoinCons(sep, sa, [sm, sc]);
      Py.JoinCons(sep, sm, [sc]);
    }
    Seqs.AppendAssoc(sa + sep, sm + sep, sc);
    Seqs.AppendAssoc(sa + sep, sm, sep);
  }

  // ---------------------------------------------------------------------------
  // The custom-instruction heading
  // ---------------------------------------------------------------------------

  /** The heading backend/tests/test_mac_agent.py:176 expects for custom instructions. */
  const Intended: Headings := Headings("附件内容", "对话历史摘要", "用户自定义指令")

  lemma IntendedVisible()
    ensures AllVisible(Intended)
  {
    assert Intended.attachment[|Intended.attachment| - 1] == '容';
    assert Intended.memory[|Intended.memory| - 1] == '要';
    assert Intended.custom[|Intended.custom| - 1] == '令';
  }

  /** The extra prompt with the heading the test expects. */
  function IntendedExtraPrompt(attachmentContext: string, memoryContext: string, customInstructions: string): string {
    ExtraPrompt(attachmentContext, memoryContext, customInstructions, Intended)
  }

  /** A substring's first character occurs in the string. */
  lemma ContainsHead(s: string, p: string)
    requires p != [] && Py.Contains(s, p)
    ensures p[0] in s
  {
    var j := Py.Find(s, p);
    assert s[j..j + |p|][0] == s[j];
  }

  /** Only custom instructions: the prompt is the custom section alone. */
  lemma {:induction false} CustomOnly(c: string, hs: Headings)
    requires c != "" && Py.IsStripped(c) && AllVisible(hs)
    ensures ExtraPrompt("", "", c, hs) == "## " + hs.custom + "\n" + c
  {
    assert ExtraPrompt("", "", c, hs) == Py.Join("\n\n", ExtraParts("", "", c, hs)) by {
      ExtraPromptJoin("", "", c, hs);
    }
    assert ExtraParts("", "", c, hs) == [Section(hs.custom, c)];
    SectionShape(hs.custom, c);
  }

  lemma NoUseIn(h: string, c: string)
    requires h == "我自定义指令" && c == "请简洁回答"
    ensures '用' !in "## " + h + "\n" + c
  {
    assert '用' !in h by {
      assert |h| == 6 && h[0] == '我' && h[1] == '自' && h[2] == '定' && h[3] == '义' && h[4] == '指' && h[5] == '令';
    }
    assert '用' !in c by {
      assert |c| == 5 && c[0] == '请' && c[1] == '简' && c[2] == '洁' && c[3] == '回' && c[4] == '答';
    }
  }

  /** As written, the custom instructions of the test come under "## 我自定义指令", so the
      test's `"用户自定义指令" in prompt` does not hold. */
  lemma CustomHeadingMissesTest(c: string, expected: string)
    requires c == "请简洁回答" && expected == Intended.custom
    ensures ExtraPrompt("", "", c, Used) == "## " + Used.custom + "\n" + c
    ensures !Py.Contains(ExtraPrompt("", "", c, Used), expected)
  {
    TestInstructionStripped(c);
    UsedVisible();
    CustomOnly(c, Used);
    var prompt := "## " + Used.custom + "\n" + c;
    NoUseIn(Used.custom, c);
    assert expected[0] == '用';
    if Py.Contains(prompt, expected) {
      ContainsHead(prompt, expected);
    }
  }

  /** The custom instructions of the test are a stripped, non-empty string. */
  lemma TestInstructionStripped(c: string)
    requires c == "请简洁回答"
    ensures c != "" && Py.IsStripped(c)
  {
    assert c[0] == '请' && c[|c| - 1] == '答';
  }

  /** The heading and the text are both in a heading line followed by its text. */
  lemma HeadedContains(h: string, c: string)
    ensures Py.Contains(Headed(h, c), h) && Py.Contains(Headed(h, c), c)
  {
    var t := Headed(h, c);
    assert t == "## " + h + "\n" + c;
    assert Py.OccursAt(t, h, 3) by {
      assert t[3..3 + |h|] == h;
    }
    Py.ContainsAt(t, h, 3);
    assert Py.OccursAt(t, c, 4 + |h|) by {
      assert t[4 + |h|..4 + |h| + |c|] == c;
    }
    Py.ContainsAt(t, c, 4 + |h|);
  }

  /** With the expected heading, both of the test's assertions hold. */
  lemma CustomHeadingMeetsTest(c: string)
    requires c == "请简洁回答"
    ensures Py.Contains(IntendedExtraPrompt("", "", c), Intended.custom)
    ensures Py.Contains(IntendedExtraPrompt("", "", c), c)
  {
    TestInstructionStripped(c);
    IntendedVisible();
    CustomOnly(c, Intended);
    HeadedContains(Intended.custom, c);
  }
}

