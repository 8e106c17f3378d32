/**
 * The text handling of the completion agent (src/chat/client/agent.rs):
 * the clean-up of a model reply, the lookup of a tool by name, the
 * post-processing of recalled memories, and the transcript handed to the
 * summariser. The model calls, embeddings and the memory store around them
 * are collaborators: their results are parameters.
 */
module Agent {
  import opened Wrappers
  import opened Text

  // ---------------------------------------------------------------------------
  // Reply clean-up
  // ---------------------------------------------------------------------------

  const ThinkOpen: string := "<think>"
  const ThinkClose: string := "</think>"

  /**
   * `<think>((?:.|\n)*?)</think>(?:\n*)?` replaced by "" everywhere: scanning
   * from the left, a `<think>` that has a `</think>` after it starts a match
   * running to the first such `</think>` and on over the newlines after it;
   * the match is removed and the scan goes on after it. Any other character
   * is kept.
   */
  function StripThink(s: string): (r: string)
    ensures |r| <= |s|
    decreases |s|
  {
    if s == [] then []
    else if StartsWith(s, ThinkOpen) && FindFirst(s[|ThinkOpen|..], ThinkClose).Some? then
      var close := |ThinkOpen| + FindFirst(s[|ThinkOpen|..], ThinkClose).value;
      StripThink(TrimStartMatches(s[close + |ThinkClose|..], '\n'))
    else
      [s[0]] + StripThink(s[1..])
  }

  /** ` +\n\n` replaced by `\n\n` everywhere: a run of spaces just before a blank line goes. */
  function CollapseSpacesBeforeBreak(s: string): (r: string)
    ensures |r| <= |s|
    decreases |s|
  {
    if s == [] then []
    else if s[0] == ' ' && StartsWith(TrimStartMatches(s, ' '), "\n\n") then
      "\n\n" + CollapseSpacesBeforeBreak(TrimStartMatches(s, ' ')[2..])
    else
      [s[0]] + CollapseSpacesBeforeBreak(s[1..])
  }

  /** No space is directly followed by another. */
  predicate NoDoubleSpace(s: string) {
    forall i :: 0 <= i < |s| - 1 ==> !(s[i] == ' ' && s[i + 1] == ' ')
  }

  /** A non-empty run of spaces. */
  predicate IsSpaceRun(s: string) {
    s != [] && forall i :: 0 <= i < |s| ==> s[i] == ' '
  }

  /** ` {2,}` replaced by a single space everywhere. */
  function CollapseSpaces(s: string): (r: string)
    ensures |r| <= |s|
    ensures (r != [] && r[0] == ' ') <==> (s != [] && s[0] == ' ')
    ensures NoDoubleSpace(r)
    decreases |s|
  {
    if |s| >= 2 && s[0] == ' ' && s[1] == ' ' then
      " " + CollapseSpaces(TrimStartMatches(s, ' '))
    else if s == [] then []
    else
      [s[0]] + CollapseSpaces(s[1..])
  }

  /** The three replacements in the order the reply goes through them. */
  function CleanedReply(text: string): string {
    CollapseSpaces(CollapseSpacesBeforeBreak(StripThink(text)))
  }

  /**
   * The clean-up of a text reply in `completion`: optional lower-casing
   * (`lowercase` stands for `str::to_lowercase`), then the three
   * replacements, each reassigning the text.
   */
  method CleanReply(text: string, forceLowercase: bool, lowercase: string -> string) returns (r: string)
    ensures r == CleanedReply(if forceLowercase then lowercase(text) else text)
    ensures NoDoubleSpace(r)
  {
    r := text;
    if forceLowercase {
      r := lowercase(r);
    }
    r := StripThink(r);
    r := CollapseSpacesBeforeBreak(r);
    r := CollapseSpaces(r);
  }

  /** `<think>` cannot begin inside `a` and end inside a following `<`. */
  lemma NoOpenAcross(a: string, x: string)
    requires !Contains(a, ThinkOpen) && x != [] && x[0] == '<'
    ensures forall p: nat :: p < |a| ==> !OccursAt(a + x, ThinkOpen, p)
  {
    forall p: nat | p < |a|
      ensures !OccursAt(a + x, ThinkOpen, p)
    {
      if p + |ThinkOpen| <= |a| {
        assert a[p..p + |ThinkOpen|] == (a + x)[p..p + |ThinkOpen|];
        assert !OccursAt(a, ThinkOpen, p);
      } else if p + |ThinkOpen| <= |a + x| {
        assert (a + x)[p..p + |ThinkOpen|][|a| - p] == (a + x)[|a|] == '<';
      }
    }
  }

  /** The first `</think>` of `t + </think> + rest` is the one after `t`. */
  lemma FirstCloseAfter(t: string, rest: string)
    requires !Contains(t, ThinkClose)
    ensures FindFirst(t + ThinkClose + rest, ThinkClose) == Some(|t|)
  {
    var s := t + ThinkClose + rest;
    assert s[|t|..|t| + |ThinkClose|] == ThinkClose;
    assert OccursAt(s, ThinkClose, |t|);
    forall k: nat | k < |t|
      ensures !OccursAt(s, ThinkClose, k)
    {
      if k + |ThinkClose| <= |t| {
        assert t[k..k + |ThinkClose|] == s[k..k + |ThinkClose|];
        assert !OccursAt(t, ThinkClose, k);
      } else {
        assert s[k..k + |ThinkClose|][|t| - k] == s[|t|] == '<';
      }
    }
    var r := FindFirst(s, ThinkClose);
    assert r.Some?;
    assert r.value <= |t|;
  }

  /** A think block: the opening tag, the thought, the closing tag, newlines. */
  function ThinkBlock(thought: string, newlines: string): string {
    ThinkOpen + thought + ThinkClose + newlines
  }

  /** Where no `<think>` starts, the first character is kept. */
  lemma StripThinkKeepsChar(s: string)
    requires s != [] && !OccursAt(s, ThinkOpen, 0)
    ensures StripThink(s) == [s[0]] + StripThink(s[1..])
  {
  }

  /** Where a `<think>` starts and a `</think>` follows, the match is skipped. */
  lemma StripThinkAtOpen(s: string, k: nat)
    requires StartsWith(s, ThinkOpen) && FindFirst(s[|ThinkOpen|..], ThinkClose) == Some(k)
    ensures |ThinkOpen| + k + |ThinkClose| <= |s|
    ensures StripThink(s) == StripThink(TrimStartMatches(s[|ThinkOpen| + k + |ThinkClose|..], '\n'))
  {
  }

  /** A block at the front goes, with every newline right after it. */
  lemma StripThinkAtBlock(t: string, newlines: string, b: string)
    requires !Contains(t, ThinkClose)
    requires forall i :: 0 <= i < |newlines| ==> newlines[i] == '\n'
    requires b == [] || b[0] != '\n'
    ensures StripThink(ThinkBlock(t, newlines) + b) == StripThink(b)
  {
    hide StripThink, TrimStartMatches, FindFirst;
    var x := ThinkBlock(t, newlines) + b;
    assert StartsWith(x, ThinkOpen) by {
      assert x[..|ThinkOpen|] == ThinkOpen;
    }
    assert x[|ThinkOpen|..] == t + ThinkClose + (newlines + b);
    FirstCloseAfter(t, newlines + b);
    StripThinkAtOpen(x, |t|);
    assert x[|ThinkOpen| + |t| + |ThinkClose|..] == newlines + b;
    TrimStartRun(newlines, b, '\n');
  }

  /**
   * One think block, in full: text before it without a `<think>` is kept,
   * the block up to its first `</think>` goes together with all the
   * newlines after it, and the clean-up goes on with what follows.
   */
  lemma {:induction false} StripThinkRemovesBlock(a: string, t: string, newlines: string, b: string)
    requires !Contains(a, ThinkOpen) && !Contains(t, ThinkClose)
    requires forall i :: 0 <= i < |newlines| ==> newlines[i] == '\n'
    requires b == [] || b[0] != '\n'
    ensures StripThink(a + ThinkBlock(t, newlines) + b) == a + StripThink(b)
    decreases |a|
  {
    hide StripThink;
    var x := ThinkBlock(t, newlines) + b;
    assert a + ThinkBlock(t, newlines) + b == a + x;
    if a == [] {
      assert a + x == x;
      StripThinkAtBlock(t, newlines, b);
    } else {
      assert x[0] == '<';
      NoOpenAcross(a, x);
      StripThinkKeepsChar(a + x);
      assert (a + x)[1..] == a[1..] + x;
      ContainsOfTail(a, ThinkOpen);
      StripThinkRemovesBlock(a[1..], t, newlines, b);
      assert a[1..] + ThinkBlock(t, newlines) + b == a[1..] + x;
      assert [a[0]] + a[1..] == a;
    }
  }

  /** Trimming a run of `c` stops at the first other character. */
  lemma TrimStartRun(run: string, b: string, c: char)
    requires forall i :: 0 <= i < |run| ==> run[i] == c
    requires b == [] || b[0] != c
    ensures TrimStartMatches(run + b, c) == b
    decreases |run|
  {
    if run != [] {
      assert (run + b)[1..] == run[1..] + b;
      TrimStartRun(run[1..], b, c);
    } else {
      assert run + b == b;
    }
  }

  /** A reply without `<think>` is left alone by the first replacement. */
  lemma {:induction false} StripThinkWithoutOpen(s: string)
    requires !Contains(s, ThinkOpen)
    ensures StripThink(s) == s
    decreases |s|
  {
    if s != [] {
      assert !OccursAt(s, ThinkOpen, 0);
      ContainsOfTail(s, ThinkOpen);
      StripThinkWithoutOpen(s[1..]);
    }
  }

  /**
   * A `<think>` with no `</think>` after it starts no match: a reply without
   * `</think>` is left alone by the first replacement.
   */
  lemma {:induction false} StripThinkWithoutClose(s: string)
    requires !Contains(s, ThinkClose)
    ensures StripThink(s) == s
    decreases |s|
  {
    if s != [] {
      if StartsWith(s, ThinkOpen) {
        var head, rest := s[..|ThinkOpen|], s[|ThinkOpen|..];
        assert s == head + rest;
        forall i: nat | i <= |rest|
          ensures !OccursAt(rest, ThinkClose, i)
        {
          OccursShift(head, rest, ThinkClose, i);
        }
        assert FindFirst(rest, ThinkClose).None?;
      }
      ContainsOfTail(s, ThinkClose);
      StripThinkWithoutClose(s[1..]);
      assert [s[0]] + s[1..] == s;
    }
  }

  /** A lone `<think>` stays in the reply. */
  lemma StripThinkKeepsLoneOpen()
    ensures StripThink(ThinkOpen) == ThinkOpen
  {
    StripThinkWithoutClose(ThinkOpen);
  }

  /** A reply without a space before a blank line is left alone by the second. */
  lemma {:induction false} CollapseBeforeBreakWithout(s: string)
    requires !Contains(s, " \n\n")
    ensures CollapseSpacesBeforeBreak(s) == s
    decreases |s|
  {
    hide TrimStartMatches, Contains;
    if s != [] {
      if s[0] == ' ' {
        NoBreakAfterSpaces(s);
      }
      ContainsOfTail(s, " \n\n");
      CollapseBeforeBreakWithout(s[1..]);
      assert [s[0]] + s[1..] == s;
    }
  }

  /** In a text without ` \n\n`, a leading run of spaces is not followed by a blank line. */
  lemma NoBreakAfterSpaces(s: string)
    requires s != [] && s[0] == ' ' && !Contains(s, " \n\n")
    ensures !StartsWith(TrimStartMatches(s, ' '), "\n\n")
  {
    var r := TrimStartMatches(s, ' ');
    var m := |s| - |r|;
    assert m >= 1 && s[m - 1] == ' ';
    if StartsWith(r, "\n\n") {
      assert s[m - 1..m + 2] == [s[m - 1]] + r[..2];
      assert OccursAt(s, " \n\n", m - 1);
    }
  }

  /** One step of the second replacement. */
  lemma BeforeBreakStep(s: string)
    ensures s != [] ==> (CollapseSpacesBeforeBreak(s) ==
      if s[0] == ' ' && StartsWith(TrimStartMatches(s, ' '), "\n\n") then
        "\n\n" + CollapseSpacesBeforeBreak(TrimStartMatches(s, ' ')[2..])
      else
        [s[0]] + CollapseSpacesBeforeBreak(s[1..]))
  {
  }

  /** One step of the third replacement. */
  lemma CollapseStep(s: string)
    ensures s != [] ==> (CollapseSpaces(s) ==
      if |s| >= 2 && s[0] == ' ' && s[1] == ' ' then
        " " + CollapseSpaces(TrimStartMatches(s, ' '))
      else
        [s[0]] + CollapseSpaces(s[1..]))
  {
  }

  /**
   * The first character of text with no space before a blank line and not
   * ending in a space is kept, whatever space-led text follows.
   */
  lemma BeforeBreakKeepsFirst(a: string, t: string)
    requires a != [] && !Contains(a, " \n\n") && a[|a| - 1] != ' '
    requires t == [] || t[0] == ' '
    ensures CollapseSpacesBeforeBreak(a + t) == [a[0]] + CollapseSpacesBeforeBreak(a[1..] + t)
  {
    hide CollapseSpacesBeforeBreak, TrimStartMatches, Contains;
    var s := a + t;
    assert s[0] == a[0] && s[1..] == a[1..] + t;
    LeadingSpacesReachNoBreak(a, t);
    BeforeBreakStep(s);
  }

  /** The spaces leading such a text do not run into a blank line. */
  lemma LeadingSpacesReachNoBreak(a: string, t: string)
    requires a != [] && !Contains(a, " \n\n") && a[|a| - 1] != ' '
    requires t == [] || t[0] == ' '
    ensures !(a[0] == ' ' && StartsWith(TrimStartMatches(a + t, ' '), "\n\n"))
  {
    hide TrimStartMatches, Contains;
    if a[0] == ' ' {
      var r := TrimStartMatches(a, ' ');
      TrimStartAppend(a, t, ' ');
      NoBreakAfterSpaces(a);
      if |r| >= 2 {
        assert (r + t)[..2] == r[..2];
      } else if t != [] {
        assert (r + t)[1] == t[0];
      }
    }
  }

  /**
   * Text with no space before a blank line and not ending in a space is kept
   * as it is when a space follows it: no run of spaces in it reaches a blank
   * line.
   */
  lemma {:induction false} CollapseBeforeBreakKeepsPrefix(a: string, t: string)
    requires !Contains(a, " \n\n") && (a == [] || a[|a| - 1] != ' ')
    requires t == [] || t[0] == ' '
    ensures CollapseSpacesBeforeBreak(a + t) == a + CollapseSpacesBeforeBreak(t)
    decreases |a|
  {
    hide CollapseSpacesBeforeBreak, TrimStartMatches, Contains;
    if a == [] {
      assert a + t == t;
    } else {
      BeforeBreakKeepsFirst(a, t);
      ContainsOfTail(a, " \n\n");
      CollapseBeforeBreakKeepsPrefix(a[1..], t);
      var rest := CollapseSpacesBeforeBreak(t);
      assert [a[0]] + (a[1..] + rest) == ([a[0]] + a[1..]) + rest;
      assert [a[0]] + a[1..] == a;
    }
  }

  /**
   * A run of spaces before a blank line goes; the text before it, if it has
   * no space before a blank line and does not end in a space, is kept, and
   * the clean-up goes on after the blank line.
   */
  lemma CollapseBeforeBreakRemovesRun(a: string, spaces: string, b: string)
    requires !Contains(a, " \n\n") && (a == [] || a[|a| - 1] != ' ')
    requires IsSpaceRun(spaces)
    ensures CollapseSpacesBeforeBreak(a + spaces + "\n\n" + b) == a + "\n\n" + CollapseSpacesBeforeBreak(b)
  {
    hide CollapseSpacesBeforeBreak, TrimStartMatches, Contains;
    var t := spaces + ("\n\n" + b);
    BeforeBreakStep(t);
    assert a + spaces + "\n\n" + b == a + t;
    assert t[0] == ' ';
    CollapseBeforeBreakKeepsPrefix(a, t);
    TrimStartRun(spaces, "\n\n" + b, ' ');
    assert ("\n\n" + b)[..2] == "\n\n" && ("\n\n" + b)[2..] == b;
    assert CollapseSpacesBeforeBreak(t) == "\n\n" + CollapseSpacesBeforeBreak(b);
  }

  /**
   * The replacement is a single pass: removing one run can put an earlier
   * space right before a blank line, and that space stays.
   */
  lemma CollapseBeforeBreakCanLeaveBreak()
    ensures CollapseSpacesBeforeBreak(" \n \n\n") == " \n\n\n"
    ensures Contains(CollapseSpacesBeforeBreak(" \n \n\n"), " \n\n")
  {
    hide CollapseSpacesBeforeBreak;
    CollapseBeforeBreakKeepsPrefix(" \n", " \n\n");
    CollapseBeforeBreakRemovesRun("", " ", "");
    assert " \n" + " \n\n" == " \n \n\n";
    assert [] + " " + "\n\n" + [] == " \n\n";
    assert OccursAt(" \n\n\n", " \n\n", 0);
  }

  /** A reply without a double space is left alone by the third. */
  lemma {:induction false} CollapseSpacesWithout(s: string)
    requires NoDoubleSpace(s)
    ensures CollapseSpaces(s) == s
    decreases |s|
  {
    if s != [] {
      assert NoDoubleSpace(s[1..]) by {
        forall i | 0 <= i < |s[1..]| - 1
          ensures !(s[1..][i] == ' ' && s[1..][i + 1] == ' ')
        {
          assert s[1..][i] == s[i + 1] && s[1..][i + 1] == s[i + 2];
        }
      }
      CollapseSpacesWithout(s[1..]);
    }
  }

  /**
   * Text that does not end in a space is collapsed on its own: no run of
   * spaces in it reaches what follows.
   */
  lemma {:induction false} CollapseSpacesAppend(a: string, t: string)
    requires a == [] || a[|a| - 1] != ' '
    ensures CollapseSpaces(a + t) == CollapseSpaces(a) + CollapseSpaces(t)
    decreases |a|
  {
    hide CollapseSpaces, TrimStartMatches, NoDoubleSpace;
    CollapseStep(a);
    CollapseStep(a + t);
    if a == [] {
      assert a + t == t;
      assert |CollapseSpaces(a)| == 0;
      assert CollapseSpaces(a) + CollapseSpaces(t) == CollapseSpaces(t);
    } else if |a| >= 2 && a[0] == ' ' && a[1] == ' ' {
      var r := TrimStartMatches(a, ' ');
      TrimStartAppend(a, t, ' ');
      assert a[|a| - 1] != ' ';
      assert r != [] && r[|r| - 1] == a[|a| - 1];
      CollapseSpacesAppend(r, t);
      assert (a + t)[0] == ' ' && (a + t)[1] == ' ';
      assert CollapseSpaces(a + t) == " " + (CollapseSpaces(r) + CollapseSpaces(t));
      assert CollapseSpaces(a) == " " + CollapseSpaces(r);
    } else {
      assert (a + t)[0] == a[0] && (a + t)[1..] == a[1..] + t;
      if |a| >= 2 {
        assert (a + t)[1] == a[1];
      }
      CollapseSpacesAppend(a[1..], t);
      assert CollapseSpaces(a + t) == [a[0]] + (CollapseSpaces(a[1..]) + CollapseSpaces(t));
      assert CollapseSpaces(a) == [a[0]] + CollapseSpaces(a[1..]);
    }
  }

  /** A run of spaces at the start of a text becomes one space. */
  lemma CollapseLeadingRun(spaces: string, b: string)
    requires IsSpaceRun(spaces)
    requires b == [] || b[0] != ' '
    ensures CollapseSpaces(spaces + b) == " " + CollapseSpaces(b)
  {
    hide CollapseSpaces, TrimStartMatches, NoDoubleSpace;
    var x := spaces + b;
    CollapseStep(x);
    if |spaces| >= 2 {
      assert x[0] == ' ' && x[1] == ' ';
      TrimStartRun(spaces, b, ' ');
    } else {
      assert x[0] == ' ' && x[1..] == b;
      if b != [] {
        assert x[1] == b[0];
      }
    }
  }

  /**
   * A run of one or more spaces between text not ending in a space and text
   * not starting with one becomes a single space; both sides are collapsed
   * on their own.
   */
  lemma CollapseSpacesRun(a: string, spaces: string, b: string)
    requires a == [] || a[|a| - 1] != ' '
    requires IsSpaceRun(spaces)
    requires b == [] || b[0] != ' '
    ensures CollapseSpaces(a + spaces + b) == CollapseSpaces(a) + " " + CollapseSpaces(b)
  {
    hide CollapseSpaces, TrimStartMatches, NoDoubleSpace, IsSpaceRun;
    CollapseLeadingRun(spaces, b);
    assert a + spaces + b == a + (spaces + b);
    CollapseSpacesAppend(a, spaces + b);
  }

  /** A clean reply comes out of the clean-up exactly as it went in. */
  lemma CleanReplyKeepsCleanText(text: string)
    requires !Contains(text, ThinkOpen) && !Contains(text, " \n\n") && NoDoubleSpace(text)
    ensures CleanedReply(text) == text
  {
    StripThinkWithoutOpen(text);
    CollapseBeforeBreakWithout(text);
    CollapseSpacesWithout(text);
  }

  /** Collapsing spaces twice is collapsing them once. */
  lemma CollapseSpacesIdempotent(s: string)
    ensures CollapseSpaces(CollapseSpaces(s)) == CollapseSpaces(s)
  {
    CollapseSpacesWithout(CollapseSpaces(s));
  }

  // ---------------------------------------------------------------------------
  // Tools
  // ---------------------------------------------------------------------------

  /** A tool takes its JSON arguments as text and answers text or an error. */
  type Tool = string -> Result<string, string>

  datatype ToolError = ToolNotFound(name: string) | ToolFailed(message: string)

  /** The message the error carries. */
  function ErrorMessage(e: ToolError): string {
    match e
    case ToolNotFound(name) => "tool not found: " + name
    case ToolFailed(message) => message
  }

  /** `call_tool`: the named tool's answer, or a not-found error. */
  function CallTool(tools: map<string, Tool>, name: string, args: string): (r: Result<string, ToolError>)
    ensures r == Err(ToolNotFound(name)) <==> name !in tools
    ensures name in tools ==> (r.Ok? <==> tools[name](args).Ok?)
    ensures name in tools && r.Ok? ==> r.value == tools[name](args).value
    ensures name in tools && r.Err? ==> r.error == ToolFailed(tools[name](args).error)
    ensures r.Err? ==>
      ErrorMessage(r.error) == if name in tools then tools[name](args).error else "tool not found: " + name
  {
    if name in tools then
      match tools[name](args)
      case Ok(out) => Ok(out)
      case Err(e) => Err(ToolFailed(e))
    else
      Err(ToolNotFound(name))
  }

  /** Registering a tool makes calls by its name reach it; the others are unaffected. */
  lemma CallToolAfterRegister(tools: map<string, Tool>, name: string, tool: Tool, other: string, args: string)
    requires other != name
    ensures CallTool(tools[name := tool], name, args).Ok? <==> tool(args).Ok?
    ensures CallTool(tools[name := tool], other, args) == CallTool(tools, other, args)
  {
  }

  // ---------------------------------------------------------------------------
  // Recall
  // ---------------------------------------------------------------------------

  /** `UserPrompt`: the text of the user's message, if any, and the memories recalled for it. */
  class UserPrompt {
    var content: Option<string>
    var relevantMemories: seq<string>

    constructor(content: Option<string>)
      ensures this.content == content && relevantMemories == []
    {
      this.content := content;
      relevantMemories := [];
    }
  }

  /**
   * A stored memory with its placeholders put back: `<user>` first, then
   * `<assistant>`. A memory without placeholders is recalled word for word.
   */
  function Restore(memory: string, userName: string, assistantName: string): (r: string)
    ensures !Contains(memory, "<user>") && !Contains(memory, "<assistant>") ==> r == memory
  {
    ReplaceAbsent(memory, "<user>", userName);
    ReplaceAbsent(memory, "<assistant>", assistantName);
    Replace(Replace(memory, "<user>", userName), "<assistant>", assistantName)
  }

  /** Every recalled memory restored, in the order found. */
  function Recalled(found: seq<string>, userName: string, assistantName: string): (r: seq<string>)
    ensures |r| == |found|
    ensures forall i :: 0 <= i < |found| ==> r[i] == Restore(found[i], userName, assistantName)
  {
    seq(|found|, i requires 0 <= i < |found| => Restore(found[i], userName, assistantName))
  }

  /**
   * A transcript line whose text holds no placeholder comes back from the
   * store with the speaker's current name in front of it.
   */
  lemma RestoreTranscriptLine(role: MessageRole, text: string, userName: string, assistantName: string)
    requires !Contains(text, "<user>") && !Contains(text, "<assistant>")
    requires !Contains(userName, "<assistant>")
    ensures Restore(Speaker(role, "<user>", "<assistant>") + ": " + text, userName, assistantName)
         == Speaker(role, userName, assistantName) + ": " + text
  {
    hide Replace;
    var body := ": " + text;
    assert [] + ": " + text == body;
    NoOccurrenceAround([], ": ", text, "<user>");
    NoOccurrenceAround([], ": ", text, "<assistant>");
    ReplaceAbsent(body, "<user>", userName);
    ReplaceAbsent(body, "<assistant>", assistantName);
    match role
    case User =>
      assert "<user>" + ": " + text == [] + "<user>" + body;
      ReplaceAround([], body, "<user>", userName);
      ReplaceAbsent([], "<user>", userName);
      var once := Replace("<user>" + ": " + text, "<user>", userName);
      assert once == userName + body;
      NoOccurrenceAround(userName, ": ", text, "<assistant>");
      assert userName + ": " + text == userName + body;
      ReplaceAbsent(userName + body, "<assistant>", assistantName);
      assert Replace(once, "<assistant>", assistantName) == userName + ": " + text;
    case Assistant =>
      assert "<assistant>" + ": " + text == [] + "<assistant>" + body;
      assert "<user>"[1] != "<assistant>"[1];
      NoOccurrenceAround([], "<assistant>", body, "<user>");
      assert "<assistant>" + body == [] + "<assistant>" + body;
      ReplaceAbsent("<assistant>" + body, "<user>", userName);
      ReplaceAround([], body, "<assistant>", assistantName);
      ReplaceAbsent([], "<assistant>", assistantName);
      assert Replace("<assistant>" + body, "<assistant>", assistantName) == assistantName + body;
  }

  /**
   * `rag_recall`: nothing happens for a prompt without text; otherwise the
   * memories found for it (`search` stands for the embedding and the store
   * search, either of which may fail) are restored and appended.
   */
  method RagRecall(prompt: UserPrompt, search: string -> Result<seq<string>, string>, userName: string, assistantName: string)
    returns (r: Result<(), string>)
    modifies prompt
    ensures prompt.content == old(prompt.content)
    ensures prompt.content.None? ==> r.Ok?
    ensures prompt.content.Some? ==> (r.Err? <==> search(prompt.content.value).Err?)
    ensures r.Err? ==> r.error == search(prompt.content.value).error
    ensures prompt.relevantMemories ==
      if r.Ok? && prompt.content.Some? then
        old(prompt.relevantMemories) + Recalled(search(prompt.content.value).value, userName, assistantName)
      else
        old(prompt.relevantMemories)
  {
    if prompt.content.None? {
      return Ok(());
    }
    var message := prompt.content.value;
    var found := search(message);
    if found.Err? {
      return Err(found.error);
    }
    var recalled := Recalled(found.value, userName, assistantName);
    if recalled != [] {
      prompt.relevantMemories := prompt.relevantMemories + recalled;
    }
    r := Ok(());
  }

  // ---------------------------------------------------------------------------
  // Transcript for the summariser
  // ---------------------------------------------------------------------------

  datatype MessageRole = User | Assistant

  /** What the summariser reads of a message: its role and its content, if any. */
  datatype Turn = Turn(role: MessageRole, content: Option<string>)

  const Separator: string := "\n---\n"

  function Speaker(role: MessageRole, userName: string, assistantName: string): string {
    match role
    case User => userName
    case Assistant => assistantName
  }

  /**
   * The text shown for a content: the `content` (or else `system_note`)
   * string of its JSON form, which `extract` stands for, or the content as
   * it is.
   */
  function Shown(content: string, extract: string -> Option<string>): string {
    extract(content).GetOr(content)
  }

  /** `name: text` and the separator, for a message with content. */
  function Line(t: Turn, extract: string -> Option<string>, userName: string, assistantName: string): (r: Option<string>)
    ensures r.None? <==> t.content.None?
    ensures r.Some? ==> EndsWith(r.value, Separator)
  {
    match t.content
    case None => None
    case Some(c) => Some(Speaker(t.role, userName, assistantName) + ": " + Shown(c, extract) + Separator)
  }

  /** The `filter_map`: one line per message with content, in order. */
  function Lines(turns: seq<Turn>, extract: string -> Option<string>, userName: string, assistantName: string): seq<string>
    decreases |turns|
  {
    if turns == [] then []
    else
      (match Line(turns[0], extract, userName, assistantName)
       case None => []
       case Some(l) => [l])
      + Lines(turns[1..], extract, userName, assistantName)
  }

  /** The lines of two runs of messages are the lines of each, in order. */
  lemma {:induction false} LinesAppend(xs: seq<Turn>, ys: seq<Turn>, extract: string -> Option<string>, userName: string, assistantName: string)
    ensures Lines(xs + ys, extract, userName, assistantName)
         == Lines(xs, extract, userName, assistantName) + Lines(ys, extract, userName, assistantName)
    decreases |xs|
  {
    if xs == [] {
      assert xs + ys == ys;
    } else {
      assert (xs + ys)[1..] == xs[1..] + ys;
      LinesAppend(xs[1..], ys, extract, userName, assistantName);
    }
  }

  /** A message without content adds no line; one with content adds exactly its line. */
  lemma LinesOfNext(turns: seq<Turn>, t: Turn, extract: string -> Option<string>, userName: string, assistantName: string)
    ensures t.content.None? ==>
      Lines(turns + [t], extract, userName, assistantName) == Lines(turns, extract, userName, assistantName)
    ensures t.content.Some? ==>
      Lines(turns + [t], extract, userName, assistantName)
      == Lines(turns, extract, userName, assistantName)
         + [Speaker(t.role, userName, assistantName) + ": " + Shown(t.content.value, extract) + Separator]
  {
    LinesAppend(turns, [t], extract, userName, assistantName);
    assert [t][1..] == [];
  }

  /** The joined lines with every trailing separator stripped. */
  function Joined(turns: seq<Turn>, extract: string -> Option<string>, userName: string, assistantName: string): (r: string)
    ensures !EndsWith(r, Separator)
  {
    TrimEndMatches(Join(Lines(turns, extract, userName, assistantName), ""), Separator)
  }

  /** What was stripped is a whole number of separators. */
  lemma JoinedStripsSeparators(turns: seq<Turn>, extract: string -> Option<string>, userName: string, assistantName: string)
    returns (k: nat)
    ensures Join(Lines(turns, extract, userName, assistantName), "")
         == Joined(turns, extract, userName, assistantName) + Repeat(Separator, k)
  {
    k := TrimEndMatchesStripsCopies(Join(Lines(turns, extract, userName, assistantName), ""), Separator);
  }

  /**
   * The transcript in `summarize`: the joined lines, trailing separators
   * stripped, then the user's name replaced by `<user>` and after that the
   * assistant's name by `<assistant>`. With names that fit and contents that
   * hold neither name, that is the transcript written with the two tags.
   */
  function Transcript(turns: seq<Turn>, extract: string -> Option<string>, userName: string, assistantName: string): (r: string)
    ensures NamesFit(userName, assistantName)
         && ContentsFree(turns, extract, userName) && ContentsFree(turns, extract, assistantName)
        ==> r == Joined(turns, extract, "<user>", "<assistant>")
  {
    TranscriptTags(turns, extract, userName, assistantName);
    Replace(Replace(Joined(turns, extract, userName, assistantName), userName, "<user>"), assistantName, "<assistant>")
  }

  /**
   * A name that the replacements find only where it stands as a speaker:
   * not empty, not starting with a space, without line breaks or colons and
   * not inside the separator.
   */
  predicate PlainName(n: string) {
    && n != [] && n[0] != ' '
    && (forall i :: 0 <= i < |n| ==> n[i] != '\n' && n[i] != ':')
    && !Contains(Separator, n)
  }

  /**
   * Two names that fit: both plain, the assistant's name holds neither the
   * user's name nor lies inside `<user>`.
   */
  predicate NamesFit(userName: string, assistantName: string) {
    PlainName(userName) && PlainName(assistantName)
    && !Contains(assistantName, userName) && !Contains("<user>", assistantName)
  }

  /** No shown content holds `pat`. */
  predicate ContentsFree(turns: seq<Turn>, extract: string -> Option<string>, pat: string) {
    forall k :: 0 <= k < |turns| && turns[k].content.Some? ==> !Contains(Shown(turns[k].content.value, extract), pat)
  }

  /** A speaker's name after one replacement of `pat` by `rep`. */
  function Renamed(x: string, pat: string, rep: string): string {
    if x == pat then rep else x
  }

  /** The text after a speaker holds a plain name nowhere, the separator included. */
  lemma BodyFree(c: string, pat: string)
    requires PlainName(pat) && !Contains(c, pat)
    ensures !Contains(": " + c + Separator, pat) && !Contains(": " + c, pat)
  {
    var s := ": " + c + Separator;
    forall i: nat | i <= |s|
      ensures !OccursAt(s, pat, i)
    {
      OccursChar(s, pat, i, i);
      if i < 2 {
        assert s[0] == ':' && s[1] == ' ';
      } else if i + |pat| <= |c| + 2 {
        assert s == ": " + (c + Separator);
        OccursShift(": ", c + Separator, pat, i - 2);
        OccursPrefix(c, Separator, pat, i - 2);
      } else if i < |c| + 2 {
        OccursChar(s, pat, i, |c| + 2);
        assert s[|c| + 2] == '\n';
      } else {
        assert s == (": " + c) + Separator;
        OccursShift(": " + c, Separator, pat, i - |c| - 2);
      }
    }
    assert ": " + c <= s;
    ContainsOfPrefix(": " + c, s, pat);
  }

  /** The speaker in front of a colon is replaced whole, or not at all. */
  lemma SpeakerReplaced(sp: string, body: string, pat: string, rep: string)
    requires PlainName(pat) && (sp == pat || !Contains(sp, pat))
    requires body != [] && body[0] == ':'
    ensures Replace(sp + body, pat, rep) == Renamed(sp, pat, rep) + Replace(body, pat, rep)
  {
    forall i: nat | i < |sp| < i + |pat|
      ensures !OccursAt(sp + body, pat, i)
    {
      OccursChar(sp + body, pat, i, |sp|);
      assert (sp + body)[|sp|] == ':';
    }
    ReplaceSplit(sp, body, pat, rep);
    if sp == pat {
      assert StartsWith(sp, pat) by {
        assert sp[..|pat|] == sp;
      }
      ReplaceAtStart(sp, pat, rep);
      assert sp[|pat|..] == [];
    } else {
      ReplaceAbsent(sp, pat, rep);
    }
  }

  /** One line under the replacement: its speaker renamed, its text kept. */
  lemma LineReplaced(sp: string, c: string, rest: string, pat: string, rep: string)
    requires PlainName(pat) && (sp == pat || !Contains(sp, pat)) && !Contains(c, pat)
    ensures Replace(sp + ": " + c + Separator + rest, pat, rep)
         == Renamed(sp, pat, rep) + ": " + c + Separator + Replace(rest, pat, rep)
  {
    hide Replace, Contains;
    BodyFree(c, pat);
    var body := ": " + c + Separator;
    forall i: nat | i < |body| < i + |pat|
      ensures !OccursAt(body + rest, pat, i)
    {
      OccursChar(body + rest, pat, i, |body| - 1);
      assert (body + rest)[|body| - 1] == '\n';
    }
    ReplaceSplit(body, rest, pat, rep);
    ReplaceAbsent(body, pat, rep);
    assert (body + rest)[0] == ':';
    SpeakerReplaced(sp, body + rest, pat, rep);
    assert sp + ": " + c + Separator + rest == sp + (body + rest);
    assert Renamed(sp, pat, rep) + ": " + c + Separator + Replace(rest, pat, rep)
        == Renamed(sp, pat, rep) + (body + Replace(rest, pat, rep));
  }

  /** The text a turn adds to the joined lines: its line, or nothing. */
  function LineText(t: Turn, extract: string -> Option<string>, x: string, y: string): string {
    match t.content
    case None => []
    case Some(c) => Speaker(t.role, x, y) + ": " + Shown(c, extract) + Separator
  }

  /** No turns, no text. */
  lemma JoinLinesNil(extract: string -> Option<string>, x: string, y: string)
    ensures Join(Lines([], extract, x, y), "") == []
  {
  }

  /** The joined lines are the first turn's text followed by the rest's. */
  lemma JoinLinesCons(turns: seq<Turn>, extract: string -> Option<string>, x: string, y: string)
    requires turns != []
    ensures Join(Lines(turns, extract, x, y), "") == LineText(turns[0], extract, x, y) + Join(Lines(turns[1..], extract, x, y), "")
  {
    var tail := Lines(turns[1..], extract, x, y);
    match turns[0].content
    case None =>
      assert Lines(turns, extract, x, y) == tail;
    case Some(c) =>
      var line := Speaker(turns[0].role, x, y) + ": " + Shown(c, extract) + Separator;
      assert Lines(turns, extract, x, y) == [line] + tail;
      JoinCons(line, tail);
  }

  /** One turn's text under the replacement: its speaker renamed. */
  lemma LineTextReplaced(t: Turn, extract: string -> Option<string>, x: string, y: string, pat: string, rep: string, rest: string)
    requires PlainName(pat) && (x == pat || !Contains(x, pat)) && (y == pat || !Contains(y, pat))
    requires t.content.Some? ==> !Contains(Shown(t.content.value, extract), pat)
    ensures Replace(LineText(t, extract, x, y) + rest, pat, rep)
         == LineText(t, extract, Renamed(x, pat, rep), Renamed(y, pat, rep)) + Replace(rest, pat, rep)
  {
    hide Replace, Contains;
    match t.content
    case None =>
      assert LineText(t, extract, x, y) + rest == rest;
    case Some(c) =>
      var sp, shown := Speaker(t.role, x, y), Shown(c, extract);
      assert Speaker(t.role, Renamed(x, pat, rep), Renamed(y, pat, rep)) == Renamed(sp, pat, rep);
      LineReplaced(sp, shown, rest, pat, rep);
  }

  /** Speakers of a prefix of the turns are renamed; their texts are kept. */
  lemma {:induction false} ReplaceLines(turns: seq<Turn>, extract: string -> Option<string>, x: string, y: string,
                                        pat: string, rep: string, rest: string)
    requires PlainName(pat) && (x == pat || !Contains(x, pat)) && (y == pat || !Contains(y, pat))
    requires ContentsFree(turns, extract, pat)
    ensures Replace(Join(Lines(turns, extract, x, y), "") + rest, pat, rep)
         == Join(Lines(turns, extract, Renamed(x, pat, rep), Renamed(y, pat, rep)), "") + Replace(rest, pat, rep)
    decreases |turns|
  {
    hide Replace, Contains, Join, Lines, LineText, Renamed;
    var x', y' := Renamed(x, pat, rep), Renamed(y, pat, rep);
    if turns == [] {
      JoinLinesNil(extract, x, y);
      JoinLinesNil(extract, x', y');
      assert [] + rest == rest;
    } else {
      var t, tail := turns[0], turns[1..];
      assert ContentsFree(tail, extract, pat) by {
        forall k | 0 <= k < |tail| && tail[k].content.Some?
          ensures !Contains(Shown(tail[k].content.value, extract), pat)
        {
          assert tail[k] == turns[k + 1];
        }
      }
      ReplaceLines(tail, extract, x, y, pat, rep, rest);
      JoinLinesCons(turns, extract, x, y);
      JoinLinesCons(turns, extract, x', y');
      var w, w' := Join(Lines(tail, extract, x, y), ""), Join(Lines(tail, extract, x', y'), "");
      var l, l' := LineText(t, extract, x, y), LineText(t, extract, x', y');
      LineTextReplaced(t, extract, x, y, pat, rep, w + rest);
      assert l + w + rest == l + (w + rest);
      assert l' + (w' + Replace(rest, pat, rep)) == l' + w' + Replace(rest, pat, rep);
    }
  }

  /** The joined transcript of turns that end in a message with content. */
  lemma JoinedOfLast(ts: seq<Turn>, t: Turn, extract: string -> Option<string>, x: string, y: string)
    requires t.content.Some?
    ensures Joined(ts + [t], extract, x, y)
         == Join(Lines(ts, extract, x, y), "") + Speaker(t.role, x, y) + ": "
            + TrimEndMatches(Shown(t.content.value, extract) + Separator, Separator)
  {
    hide Lines, TrimEndMatches;
    LinesOfNext(ts, t, extract, x, y);
    var lines := Lines(ts, extract, x, y);
    var shown := Shown(t.content.value, extract);
    var line := Speaker(t.role, x, y) + ": " + shown + Separator;
    JoinSnoc(lines, line, "");
    assert Join(lines + [line], "") == Join(lines, "") + line;
    var head := Join(lines, "") + Speaker(t.role, x, y) + ": ";
    assert Join(lines, "") + line == head + (shown + Separator);
    assert head[|head| - 1] == ' ';
    TrimEndAfterStop(head, shown + Separator, Separator);
  }

  /** Trimming the separators off the last line leaves a prefix of its text. */
  lemma LastTrimmed(shown: string)
    ensures TrimEndMatches(shown + Separator, Separator) <= shown
  {
    var line := shown + Separator;
    assert line[..|line| - |Separator|] == shown && line[|line| - |Separator|..] == Separator;
    assert TrimEndMatches(line, Separator) == TrimEndMatches(shown, Separator);
  }

  /** The transcript of turns ending in a message with content, under the replacement. */
  lemma ReplaceJoinedLast(ts: seq<Turn>, t: Turn, extract: string -> Option<string>, x: string, y: string,
                          pat: string, rep: string)
    requires PlainName(pat) && (x == pat || !Contains(x, pat)) && (y == pat || !Contains(y, pat))
    requires ContentsFree(ts, extract, pat)
    requires t.content.Some? && !Contains(Shown(t.content.value, extract), pat)
    ensures Replace(Joined(ts + [t], extract, x, y), pat, rep)
         == Joined(ts + [t], extract, Renamed(x, pat, rep), Renamed(y, pat, rep))
  {
    hide Replace, Contains, Join, Lines, TrimEndMatches, Joined;
    var x', y' := Renamed(x, pat, rep), Renamed(y, pat, rep);
    var shown := Shown(t.content.value, extract);
    var c := TrimEndMatches(shown + Separator, Separator);
    var sp := Speaker(t.role, x, y);
    var sp' := Renamed(sp, pat, rep);
    var w, w' := Join(Lines(ts, extract, x, y), ""), Join(Lines(ts, extract, x', y'), "");
    var body := ": " + c;
    assert Joined(ts + [t], extract, x, y) == w + (sp + body) by {
      JoinedOfLast(ts, t, extract, x, y);
    }
    assert Joined(ts + [t], extract, x', y') == w' + (sp' + body) by {
      JoinedOfLast(ts, t, extract, x', y');
      assert Speaker(t.role, x', y') == sp';
    }
    assert Replace(body, pat, rep) == body by {
      LastTrimmed(shown);
      ContainsOfPrefix(c, shown, pat);
      BodyFree(c, pat);
      ReplaceAbsent(body, pat, rep);
    }
    assert Replace(sp + body, pat, rep) == sp' + body by {
      SpeakerReplaced(sp, body, pat, rep);
    }
    assert Replace(w + (sp + body), pat, rep) == w' + (sp' + body) by {
      ReplaceLines(ts, extract, x, y, pat, rep, sp + body);
    }
  }

  /** Under the replacement of a plain name, the transcript is the one with the speaker renamed. */
  lemma {:induction false} ReplaceJoined(turns: seq<Turn>, extract: string -> Option<string>, x: string, y: string,
                                         pat: string, rep: string)
    requires PlainName(pat) && (x == pat || !Contains(x, pat)) && (y == pat || !Contains(y, pat))
    requires ContentsFree(turns, extract, pat)
    ensures Replace(Joined(turns, extract, x, y), pat, rep)
         == Joined(turns, extract, Renamed(x, pat, rep), Renamed(y, pat, rep))
    decreases |turns|
  {
    hide Replace, Contains, Join, Lines, TrimEndMatches, Renamed;
    if turns == [] {
      JoinLinesNil(extract, x, y);
      JoinLinesNil(extract, Renamed(x, pat, rep), Renamed(y, pat, rep));
      ReplaceNil(pat, rep);
    } else {
      var ts, t := turns[..|turns| - 1], turns[|turns| - 1];
      assert turns == ts + [t];
      assert ContentsFree(ts, extract, pat) by {
        forall k | 0 <= k < |ts| && ts[k].content.Some?
          ensures !Contains(Shown(ts[k].content.value, extract), pat)
        {
          assert ts[k] == turns[k];
        }
      }
      if t.content.None? {
        LinesOfNext(ts, t, extract, x, y);
        LinesOfNext(ts, t, extract, Renamed(x, pat, rep), Renamed(y, pat, rep));
        ReplaceJoined(ts, extract, x, y, pat, rep);
      } else {
        ReplaceJoinedLast(ts, t, extract, x, y, pat, rep);
      }
    }
  }

  /** Both replacements of `summarize` turn the names into the two tags. */
  lemma TranscriptTags(turns: seq<Turn>, extract: string -> Option<string>, userName: string, assistantName: string)
    ensures NamesFit(userName, assistantName)
         && ContentsFree(turns, extract, userName) && ContentsFree(turns, extract, assistantName)
        ==> Replace(Replace(Joined(turns, extract, userName, assistantName), userName, "<user>"), assistantName, "<assistant>")
            == Joined(turns, extract, "<user>", "<assistant>")
  {
    var u, a := userName, assistantName;
    if NamesFit(u, a) && ContentsFree(turns, extract, u) && ContentsFree(turns, extract, a) {
      assert OccursAt(u, u, 0) by {
        assert u[0..|u|] == u;
      }
      assert a != u;
      ReplaceJoined(turns, extract, u, a, u, "<user>");
      assert Renamed(u, u, "<user>") == "<user>" && Renamed(a, u, "<user>") == a;
      assert OccursAt(a, a, 0) by {
        assert a[0..|a|] == a;
      }
      assert a != "<user>";
      ReplaceJoined(turns, extract, "<user>", a, a, "<assistant>");
      assert Renamed("<user>", a, "<assistant>") == "<user>" && Renamed(a, a, "<assistant>") == "<assistant>";
    }
  }

  /** A lone message with content is its line without the separator. */
  lemma JoinedOfOneMessage(role: MessageRole, content: string, extract: string -> Option<string>, userName: string, assistantName: string)
    requires !EndsWith(Speaker(role, userName, assistantName) + ": " + Shown(content, extract), Separator)
    ensures Joined([Turn(role, Some(content))], extract, userName, assistantName)
         == Speaker(role, userName, assistantName) + ": " + Shown(content, extract)
  {
    var turn := Turn(role, Some(content));
    var line := Speaker(role, userName, assistantName) + ": " + Shown(content, extract);
    LinesOfNext([], turn, extract, userName, assistantName);
    assert [] + [turn] == [turn];
    var lines := Lines([turn], extract, userName, assistantName);
    assert lines == [line + Separator];
    assert Join(lines, "") == line + Separator;
    assert (line + Separator)[..|line + Separator| - |Separator|] == line;
    assert (line + Separator)[|line + Separator| - |Separator|..] == Separator;
    assert TrimEndMatches(line, Separator) == line;
    assert TrimEndMatches(line + Separator, Separator) == line;
  }
}
