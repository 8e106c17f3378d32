/**
 * The conversation window (src/chat/context/context.rs).
 *
 * `ChatContext` owns an insertion-ordered map from message id to a slot; it
 * is a class whose `slots` field lists the map's entries in insertion order,
 * keys unique. A slot stands for the branch-context crate's `Messages`: only
 * its key and its currently selected message are modelled. Times are whole
 * seconds; the clock reading, the formatted `{time}` string and the duration
 * formatter are parameters.
 */
module Context {
  import opened Wrappers
  import opened Prompt

  /** `ChatMessage`: a role, the text, and when it was sent (in seconds). */
  datatype ChatMessage = ChatMessage(role: string, content: string, sentAt: int)

  /** The `sent_at` a message gets from `..Default::default()`. */
  const DefaultSentAt: int := 0

  /** One entry of the map: its key and the slot's selected message. */
  datatype Slot = Slot(id: nat, selected: ChatMessage)

  const EmptyContextError: string := "Context is empty, nothing to freewill out of"

  // ---------------------------------------------------------------------------
  // The ordered map as a sequence of entries
  // ---------------------------------------------------------------------------

  predicate HasKey(slots: seq<Slot>, id: nat) {
    exists i :: 0 <= i < |slots| && slots[i].id == id
  }

  /** No key occurs twice, as in an `IndexMap`. */
  predicate KeysDistinct(slots: seq<Slot>) {
    forall i, j :: 0 <= i < j < |slots| ==> slots[i].id != slots[j].id
  }

  /** The position of the entry with key `id`, if there is one. */
  function IndexOf(slots: seq<Slot>, id: nat): (r: Option<nat>)
    ensures r.Some? ==> r.value < |slots| && slots[r.value].id == id
    ensures r.Some? ==> forall j :: 0 <= j < r.value ==> slots[j].id != id
    ensures r.None? <==> !HasKey(slots, id)
    decreases |slots|
  {
    if slots == [] then None
    else if slots[0].id == id then Some(0)
    else
      match IndexOf(slots[1..], id)
      case Some(i) => Some(i + 1)
      case None =>
        assert forall i :: 1 <= i < |slots| ==> slots[i] == slots[1..][i - 1];
        None
  }

  /**
   * `IndexMap::insert`: a new key is appended at the end; an existing key
   * keeps its position and only its slot is replaced.
   */
  function Insert(slots: seq<Slot>, s: Slot): (r: seq<Slot>)
    ensures !HasKey(slots, s.id) ==> r == slots + [s]
    ensures HasKey(slots, s.id) && KeysDistinct(slots) ==>
      && |r| == |slots|
      && forall j :: 0 <= j < |slots| ==> r[j] == (if slots[j].id == s.id then s else slots[j])
    ensures KeysDistinct(slots) ==> KeysDistinct(r)
    ensures HasKey(r, s.id)
  {
    match IndexOf(slots, s.id)
    case Some(i) =>
      assert slots[i := s][i] == s;
      slots[i := s]
    case None =>
      assert (slots + [s])[|slots|] == s;
      slots + [s]
  }

  /** The selected message of each slot, in order. */
  function Selected(slots: seq<Slot>): (r: seq<ChatMessage>)
    ensures |r| == |slots| && forall i :: 0 <= i < |slots| ==> r[i] == slots[i].selected
  {
    seq(|slots|, i requires 0 <= i < |slots| => slots[i].selected)
  }

  /** `Iterator::rposition`: the last position whose element satisfies `p`. */
  function RPosition<T>(xs: seq<T>, p: T -> bool): (r: Option<nat>)
    ensures r.Some? ==> r.value < |xs| && p(xs[r.value])
    ensures r.Some? ==> forall j :: r.value < j < |xs| ==> !p(xs[j])
    ensures r.None? ==> forall j :: 0 <= j < |xs| ==> !p(xs[j])
    decreases |xs|
  {
    if xs == [] then None
    else if p(xs[|xs| - 1]) then Some(|xs| - 1)
    else RPosition(xs[..|xs| - 1], p)
  }

  function HasRole(role: string): Slot -> bool {
    (s: Slot) => s.selected.role == role
  }

  function IsRole(role: string): ChatMessage -> bool {
    (m: ChatMessage) => m.role == role
  }

  // ---------------------------------------------------------------------------
  // Assembling the context
  // ---------------------------------------------------------------------------

  function SystemMessage(content: string): ChatMessage {
    ChatMessage("system", content, DefaultSentAt)
  }

  /** The time fed to the prompt: the last selected message's, or now when there is none. */
  function LastMessageTime(slots: seq<Slot>, now: int): int {
    if slots == [] then now else slots[|slots| - 1].selected.sentAt
  }

  /** What `get_context` returns: the system message, then every selected message in order. */
  function ContextOf(slots: seq<Slot>, systemText: string): (r: seq<ChatMessage>)
    ensures |r| == |slots| + 1
    ensures r[0] == SystemMessage(systemText) && r[0].role == "system"
    ensures forall i :: 0 <= i < |slots| ==> r[i + 1] == slots[i].selected
  {
    [SystemMessage(systemText)] + Selected(slots)
  }

  /**
   * How many of the oldest slots `get_context` drains: when the window holds
   * at least `maxStm` slots, all but `maxStm * 4 / 5` of them; otherwise none.
   * The subtraction never goes below zero.
   */
  function DrainCount(len: nat, maxStm: nat): (k: nat)
    ensures k <= len
    ensures len >= maxStm ==> len - k == maxStm * 4 / 5
    ensures len < maxStm ==> k == 0
  {
    if len >= maxStm then len - maxStm * 4 / 5 else 0
  }

  /** The slots `get_context` keeps: all but the drained oldest ones. */
  function Kept(slots: seq<Slot>, maxStm: nat): (r: seq<Slot>)
    ensures |r| <= |slots| && r == slots[|slots| - |r|..]
    ensures |slots| >= maxStm ==> |r| == maxStm * 4 / 5
    ensures |slots| < maxStm ==> r == slots
  {
    slots[DrainCount(|slots|, maxStm)..]
  }

  /**
   * What `get_context` reports as drained: the selected messages of the
   * drained slots, oldest first, whenever a non-empty window was full.
   */
  function DrainedOf(slots: seq<Slot>, maxStm: nat): (r: Option<seq<ChatMessage>>)
    ensures r.Some? <==> slots != [] && |slots| >= maxStm
    ensures r.Some? ==> Selected(slots[..DrainCount(|slots|, maxStm)]) == r.value
    ensures r.Some? ==> Selected(slots) == r.value + Selected(Kept(slots, maxStm))
  {
    if slots != [] && |slots| >= maxStm then Some(Selected(slots[..DrainCount(|slots|, maxStm)])) else None
  }

  /** After a drain the window is below capacity again, so the next call drains nothing. */
  lemma DrainLeavesRoom(len: nat, maxStm: nat)
    requires maxStm >= 1 && len >= maxStm
    ensures len - DrainCount(len, maxStm) < maxStm
    ensures DrainCount(len - DrainCount(len, maxStm), maxStm) == 0
  {
  }

  /** 60 slots with `maxStm` 50: 20 drained, 40 kept, and 61 messages returned. */
  lemma DrainExample(slots: seq<Slot>, systemText: string)
    requires |slots| == 60
    ensures DrainCount(|slots|, 50) == 20
    ensures |slots[DrainCount(|slots|, 50)..]| == 40
    ensures |ContextOf(slots, systemText)| == 61
  {
  }

  /** The context with the last message of role `role` taken out, if there is one. */
  function RemoveLastWithRole(ms: seq<ChatMessage>, role: string): (r: seq<ChatMessage>)
    ensures RPosition(ms, IsRole(role)).None? ==> r == ms
    ensures RPosition(ms, IsRole(role)).Some? ==>
      var pos := RPosition(ms, IsRole(role)).value;
      r == ms[..pos] + ms[pos + 1..]
  {
    match RPosition(ms, IsRole(role))
    case Some(pos) => ms[..pos] + ms[pos + 1..]
    case None => ms
  }

  /** Removing the last message of a role keeps a first message of another role in front. */
  lemma RemoveKeepsFirst(ms: seq<ChatMessage>, role: string)
    requires |ms| >= 1 && ms[0].role != role
    ensures |RemoveLastWithRole(ms, role)| >= 1 && RemoveLastWithRole(ms, role)[0] == ms[0]
  {
    var pos := RPosition(ms, IsRole(role));
    if pos.Some? {
      var k := pos.value;
      assert (ms[..k] + ms[k + 1..])[0] == ms[0];
    }
  }

  /** Removing the last message of a role shortens the list exactly when the role occurs. */
  lemma RemoveDropsOneIffPresent(ms: seq<ChatMessage>, role: string)
    ensures |RemoveLastWithRole(ms, role)| == |ms| - 1 <==> exists i :: 0 <= i < |ms| && ms[i].role == role
  {
    var p := IsRole(role);
    if RPosition(ms, p).None? {
      forall i | 0 <= i < |ms| ensures ms[i].role != role {
        assert !p(ms[i]);
      }
    }
  }

  /**
   * Regenerating keeps the system message first, and drops one message
   * exactly when some slot's selected message is the assistant's.
   */
  lemma RegenKeepsSystemFirst(slots: seq<Slot>, systemText: string)
    ensures var c := ContextOf(slots, systemText);
      var r := RemoveLastWithRole(c, "assistant");
      && |r| >= 1 && r[0] == SystemMessage(systemText)
      && (|r| == |c| - 1 <==> exists i :: 0 <= i < |slots| && slots[i].selected.role == "assistant")
  {
    var c := ContextOf(slots, systemText);
    RemoveKeepsFirst(c, "assistant");
    RemoveDropsOneIffPresent(c, "assistant");
    if exists i :: 0 <= i < |c| && c[i].role == "assistant" {
      var i :| 0 <= i < |c| && c[i].role == "assistant";
      assert i != 0;
      assert c[i] == slots[i - 1].selected;
    }
    if exists i :: 0 <= i < |slots| && slots[i].selected.role == "assistant" {
      var i :| 0 <= i < |slots| && slots[i].selected.role == "assistant";
      assert c[i + 1] == slots[i].selected;
    }
  }

  /**
   * The nudge of `get_freewill_context`: a user message, sent at the default
   * time, whose text names the elapsed time.
   */
  function FreewillMessage(since: string): ChatMessage {
    ChatMessage("user", "*it's been around " + since + FreewillClosing(since), DefaultSentAt)
  }

  /** The freewill message is a user message that opens by naming the time elapsed. */
  lemma FreewillMessageNamesElapsed(since: string)
    ensures FreewillMessage(since).role == "user" && FreewillMessage(since).sentAt == DefaultSentAt
    ensures Text.StartsWith(FreewillMessage(since).content, "*it's been around ")
    ensures Text.OccursAt(FreewillMessage(since).content, since, |"*it's been around "|)
  {
    hide FreewillClosing;
    var r := Text.Around("*it's been around ", since, FreewillClosing(since));
  }

  /**
   * The fixed text after the elapsed time; it does not depend on the time
   * itself. It takes the time only so that the long literal is unfolded where
   * a message is built, not wherever the function is named.
   */
  function FreewillClosing(since: string): string {
    " since you last said something, and the user did not respond. your next response should attempt to pull the user back into the conversation. please respond once again, making sure to keep the same tone and style as you normally would, following all previous instructions, yet keeping the time difference in mind. your response should only contain the actual response, not your thoughts or anything else.*\n\n\"...\""
  }

  // ---------------------------------------------------------------------------
  // The context object
  // ---------------------------------------------------------------------------

  class ChatContext {
    /** The map's entries in insertion order. */
    var slots: seq<Slot>
    var systemPrompt: Builder

    ghost predicate Valid()
      reads this
    {
      KeysDistinct(slots)
    }

    /** `ChatContext::new`: no messages, a copy of the builder. */
    constructor(systemPrompt: Builder)
      ensures Valid()
      ensures slots == [] && this.systemPrompt == systemPrompt
    {
      slots := [];
      this.systemPrompt := systemPrompt;
    }

    /**
     * `add_message`: insert or replace the slot under the given id. A
     * message without id gets the fresh id the slot crate hands out, passed
     * in as `freshId`.
     */
    method AddMessage(message: ChatMessage, id: Option<nat>, freshId: nat)
      requires Valid()
      requires id.None? ==> !HasKey(slots, freshId)
      modifies this
      ensures Valid()
      ensures systemPrompt == old(systemPrompt)
      ensures slots == Insert(old(slots), Slot(id.GetOr(freshId), message))
      ensures !HasKey(old(slots), id.GetOr(freshId)) ==>
        slots == old(slots) + [Slot(id.GetOr(freshId), message)] && Latest() == Some(Slot(id.GetOr(freshId), message))
      ensures HasKey(old(slots), id.GetOr(freshId)) ==> |slots| == |old(slots)|
    {
      var s := Slot(id.GetOr(freshId), message);
      match IndexOf(slots, s.id)
      case Some(i) =>
        slots := slots[i := s];
      case None =>
        slots := slots + [s];
    }

    /** `add_user_message`: a role-"user" message under the given id. */
    method AddUserMessage(message: string, id: nat)
      requires Valid()
      modifies this
      ensures Valid()
      ensures systemPrompt == old(systemPrompt)
      ensures slots == Insert(old(slots), Slot(id, ChatMessage("user", message, DefaultSentAt)))
    {
      AddMessage(ChatMessage("user", message, DefaultSentAt), Some(id), id);
    }

    /** `latest`: the most recently inserted slot. */
    function Latest(): (r: Option<Slot>)
      reads this
      ensures r.None? <==> slots == []
      ensures r.Some? ==> r.value == slots[|slots| - 1]
    {
      if slots == [] then None else Some(slots[|slots| - 1])
    }

    /** `latest_with_role`: the last slot whose selected message has the role. */
    function LatestWithRole(role: string): (r: Option<Slot>)
      reads this
      ensures r.None? <==> forall i :: 0 <= i < |slots| ==> slots[i].selected.role != role
      ensures r.Some? ==> r.value.selected.role == role
      ensures r.Some? ==>
        exists i :: (0 <= i < |slots| && slots[i] == r.value &&
                     forall j :: i < j < |slots| ==> slots[j].selected.role != role)
    {
      match RPosition(slots, HasRole(role))
      case Some(i) =>
        assert slots[i] == slots[i];
        Some(slots[i])
      case None => None
    }

    /** `find`: the slot under a key. */
    function Find(id: nat): (r: Option<Slot>)
      reads this
      ensures r.None? <==> !HasKey(slots, id)
      ensures r.Some? ==> r.value.id == id && r.value in slots
    {
      match IndexOf(slots, id)
      case Some(i) => Some(slots[i])
      case None => None
    }

    /** `get`: the slot at a position. */
    function Get(index: nat): (r: Option<Slot>)
      reads this
      ensures r.None? <==> index >= |slots|
      ensures r.Some? ==> r.value == slots[index]
    {
      if index < |slots| then Some(slots[index]) else None
    }

    /** `find_full`: the position, the key and the slot under a key. */
    function FindFull(id: nat): (r: Option<(nat, nat, Slot)>)
      reads this
      ensures r.None? <==> !HasKey(slots, id)
      ensures r.Some? ==> r.value.0 < |slots| && r.value.1 == id && r.value.2 == slots[r.value.0]
      ensures r.Some? ==> Get(r.value.0) == Find(id)
    {
      match IndexOf(slots, id)
      case Some(i) => Some((i, id, slots[i]))
      case None => None
    }

    /** `time_since_last`: now minus the latest slot's sending time, an error when empty. */
    function TimeSinceLast(now: int): (r: Result<int, string>)
      reads this
      ensures r.Err? <==> slots == []
      ensures r.Err? ==> r.error == EmptyContextError
      ensures r.Ok? ==> r.value == now - slots[|slots| - 1].selected.sentAt
    {
      match Latest()
      case None => Err(EmptyContextError)
      case Some(last) => Ok(now - last.selected.sentAt)
    }

    /**
     * `get_context`: the system message and the selected messages, gathered
     * before the oldest slots are drained when the window is full. An empty
     * window yields the system message alone and drains nothing.
     */
    method GetContext(recalling: bool, now: int, time: string)
      returns (context: seq<ChatMessage>, drained: Option<seq<ChatMessage>>)
      requires Valid()
      modifies this
      ensures Valid()
      ensures systemPrompt == old(systemPrompt)
      ensures slots == Kept(old(slots), systemPrompt.maxStm)
      ensures drained == DrainedOf(old(slots), systemPrompt.maxStm)
      ensures context == ContextOf(old(slots), BuiltText(systemPrompt, LastMessageTime(old(slots), now), now, time, recalling))
    {
      hide BuiltText, Render, Rewrite, PhraseElapsed, IsPhrase, Header, AboutSection, Text.StartsWith, Text.Contains, ContextOf, Selected, Kept, DrainedOf, DrainCount;
      DrainUnfolds(slots, systemPrompt.maxStm);
      if slots == [] {
        var sp := Build(systemPrompt, now, now, time, recalling);
        context := [SystemMessage(sp.inner)];
        drained := None;
        return;
      }
      var ctx: seq<ChatMessage> := [];
      var i := 0;
      while i < |slots|
        invariant 0 <= i <= |slots|
        invariant |ctx| == i
        invariant forall j :: 0 <= j < i ==> ctx[j] == slots[j].selected
      {
        ctx := ctx + [slots[i].selected];
        i := i + 1;
      }
      var lastMessageTime := ctx[|ctx| - 1].sentAt;
      ghost var all := slots;
      if |slots| >= systemPrompt.maxStm {
        var toRemove := |slots| - (systemPrompt.maxStm * 4) / 5;
        drained := Some(Selected(slots[..toRemove]));
        slots := slots[toRemove..];
        KeysDistinctSuffix(all, toRemove);
        assert toRemove == DrainCount(|all|, systemPrompt.maxStm);
        assert slots == Kept(all, systemPrompt.maxStm);
      } else {
        drained := None;
        assert all[0..] == all;
        assert slots == Kept(all, systemPrompt.maxStm);
      }
      var sp := Build(systemPrompt, lastMessageTime, now, time, recalling);
      context := [SystemMessage(sp.inner)] + ctx;
      assert ctx == Selected(all);
      ContextOfUnfolds(all, sp.inner);
    }

    /**
     * `get_regen_context`: the context of `get_context` with its last
     * assistant message removed; the window changes exactly as there.
     */
    method GetRegenContext(recalling: bool, now: int, time: string)
      returns (context: seq<ChatMessage>, drained: Option<seq<ChatMessage>>)
      requires Valid()
      modifies this
      ensures Valid()
      ensures systemPrompt == old(systemPrompt)
      ensures slots == Kept(old(slots), systemPrompt.maxStm)
      ensures drained == DrainedOf(old(slots), systemPrompt.maxStm)
      ensures context == RemoveLastWithRole(
        ContextOf(old(slots), BuiltText(systemPrompt, LastMessageTime(old(slots), now), now, time, recalling)), "assistant")
    {
      hide BuiltText, Render, Rewrite, PhraseElapsed, IsPhrase, Header, AboutSection, Text.StartsWith, Text.Contains, ContextOf, Selected, Kept, DrainedOf, DrainCount;
      context, drained := GetContext(recalling, now, time);
      var pos := RPosition(context, IsRole("assistant"));
      if pos.Some? {
        context := context[..pos.value] + context[pos.value + 1..];
      }
    }

    /**
     * `freewill_context`: after `get_context` (and its drain), fail when the
     * window is empty; otherwise add an id-less user slot saying how long it
     * has been silent, and return the context with that message appended.
     * `timeToString` formats the duration; the drain happens even on failure.
     */
    method FreewillContext(recalling: bool, now: int, time: string, timeToString: int -> string, freshId: nat)
      returns (r: Result<(seq<ChatMessage>, Option<seq<ChatMessage>>), string>)
      requires Valid()
      requires !HasKey(slots, freshId)
      modifies this
      ensures Valid()
      ensures systemPrompt == old(systemPrompt)
      ensures r.Err? <==> Kept(old(slots), systemPrompt.maxStm) == []
      ensures r.Err? ==> r.error == EmptyContextError && slots == Kept(old(slots), systemPrompt.maxStm)
      ensures r.Ok? ==> r.value.1 == DrainedOf(old(slots), systemPrompt.maxStm)
      ensures r.Ok? ==>
        var kept := Kept(old(slots), systemPrompt.maxStm);
        var message := FreewillMessage(timeToString(now - kept[|kept| - 1].selected.sentAt));
        && slots == kept + [Slot(freshId, message)]
        && r.value.0 ==
          ContextOf(old(slots), BuiltText(systemPrompt, LastMessageTime(old(slots), now), now, time, recalling)) + [message]
    {
      hide BuiltText, Render, Rewrite, PhraseElapsed, IsPhrase, Header, AboutSection, Text.StartsWith, Text.Contains, FreewillMessage, ContextOf, Selected, Kept, DrainedOf, DrainCount;
      ghost var before := slots;
      var context, drained := GetContext(recalling, now, time);
      KeysDistinctSuffixFresh(before, DrainCount(|before|, systemPrompt.maxStm), freshId);
      var since := TimeSinceLast(now);
      if since.Err? {
        return Err(since.error);
      }
      ghost var kept := slots;
      var message := FreewillMessage(timeToString(since.value));
      assert message == FreewillMessage(timeToString(now - kept[|kept| - 1].selected.sentAt));
      AddMessage(message, None, freshId);
      assert slots == kept + [Slot(freshId, message)];
      context := context + [message];
      r := Ok((context, drained));
    }
  }

  lemma DrainUnfolds(slots: seq<Slot>, maxStm: nat)
    ensures Kept(slots, maxStm) == slots[DrainCount(|slots|, maxStm)..]
    ensures DrainedOf(slots, maxStm) ==
      if slots != [] && |slots| >= maxStm then Some(Selected(slots[..DrainCount(|slots|, maxStm)])) else None
    ensures DrainCount(|slots|, maxStm) == if |slots| >= maxStm then |slots| - maxStm * 4 / 5 else 0
  {
  }

  lemma ContextOfUnfolds(slots: seq<Slot>, systemText: string)
    ensures ContextOf(slots, systemText) == [SystemMessage(systemText)] + Selected(slots)
  {
  }

  lemma KeysDistinctSuffix(slots: seq<Slot>, k: nat)
    requires k <= |slots| && KeysDistinct(slots)
    ensures KeysDistinct(slots[k..])
  {
    forall i, j | 0 <= i < j < |slots[k..]|
      ensures slots[k..][i].id != slots[k..][j].id
    {
      assert slots[k..][i] == slots[k + i] && slots[k..][j] == slots[k + j];
    }
  }

  lemma KeysDistinctSuffixFresh(slots: seq<Slot>, k: nat, id: nat)
    requires k <= |slots| && !HasKey(slots, id)
    ensures !HasKey(slots[k..], id)
  {
    forall i | 0 <= i < |slots[k..]| ensures slots[k..][i].id != id {
      assert slots[k..][i] == slots[k + i];
    }
  }
}
