/** Publishing one briefing generation (tools/briefing/briefing.py): prose, manifest and page are three atomic
    writes, and the process may die between any two of them. The first prose written is the generation's for good,
    and repeating the call finishes what a crash left undone. */
module BriefingPublish {
  import opened Prelude
  import opened DenText

  const MAX_PROSE: nat := 64 * 1024

  /** What one generation's directory holds; `prepared` is its manifest's delivery. */
  datatype Files = Files(prose: Option<string>, prepared: bool, page: Option<string>)

  datatype Outcome = Published | AlreadyPublished | Recovered | Unchanged

  datatype Reply = Refused | Died | Done(outcome: Outcome, prose: string)

  function Normalized(words: string): string { Strip(words) + "\n" }

  predicate Accepted(words: string) { Strip(words) != "" && |Normalized(words)| <= MAX_PROSE }

  /** Rendering is a function of the run: its prose and its manifest. */
  type Render = (string, bool) -> string

  /** The prose a call leaves: what is there already, or its own words. */
  function Kept(d: Files, words: string): string {
    if d.prose.Some? then d.prose.value else Normalized(words)
  }

  function WithProse(d: Files, words: string): Files { d.(prose := Some(Kept(d, words))) }

  function WithManifest(d: Files, words: string): Files { WithProse(d, words).(prepared := true) }

  function WithPage(d: Files, words: string, render: Render): Files {
    WithManifest(d, words).(page := Some(render(Kept(d, words), true)))
  }

  function OutcomeOf(d: Files, words: string, render: Render): Outcome {
    if d.prose.None? then Published
    else if d.prose.value != Normalized(words) then AlreadyPublished
    else if WithPage(d, words, render) != d then Recovered
    else Unchanged
  }

  /** One call during which at most `writes` writes land before the process dies. */
  function Publish(d: Files, words: string, writes: nat, render: Render): (Files, Reply) {
    if !Accepted(words) || (d.prepared && d.prose.None?) then (d, Refused)
    else
      var a := WithProse(d, words);
      var b := WithManifest(d, words);
      var c := WithPage(d, words, render);
      var first := if a != d then 1 else 0;
      var second := first + if b != a then 1 else 0;
      var third := second + if c != b then 1 else 0;
      if writes < first then (d, Died)
      else if writes < second then (a, Died)
      else if writes < third then (b, Died)
      else (c, Done(OutcomeOf(d, words, render), Kept(d, words)))
  }

  // ---- the directory, changed in place ----

  class Directory {
    var prose: Option<string>
    var prepared: bool
    var page: Option<string>

    function State(): Files
      reads this
    {
      Files(prose, prepared, page)
    }

    /** `_publish_owned`, dying once the writes it may still make are used up. */
    method PublishOwned(words: string, writes: nat, render: Render) returns (reply: Reply)
      modifies this
      ensures (State(), reply) == Publish(old(State()), words, writes, render)
    {
      hide Strip;
      if !Accepted(words) || (prepared && prose.None?) {
        return Refused;
      }
      var left := writes;
      var normalized := Normalized(words);
      var reused := prose.Some? && prose.value != normalized;
      if reused {
        normalized := prose.value;
      }
      var wroteProse := prose.None?;
      if wroteProse {
        if left == 0 {
          return Died;
        }
        prose, left := Some(normalized), left - 1;
      }
      var wroteManifest := !prepared;
      if wroteManifest {
        if left == 0 {
          return Died;
        }
        prepared, left := true, left - 1;
      }
      var rendered := render(prose.value, prepared);
      var wrotePage := page != Some(rendered);
      if wrotePage {
        if left == 0 {
          return Died;
        }
        page := Some(rendered);
      }
      var outcome :=
        if wroteProse then Published
        else if reused then AlreadyPublished
        else if wroteManifest || wrotePage then Recovered
        else Unchanged;
      return Done(outcome, normalized);
    }
  }

  // ---- convergence ----

  /** A manifest is never prepared before its prose is there. */
  predicate Ordered(d: Files) { d.prepared ==> d.prose.Some? }

  /** Delivery is prepared and the page is the rendering of the run. */
  predicate Ready(d: Files, render: Render) {
    d.prose.Some? && d.prepared && d.page == Some(render(d.prose.value, true))
  }

  // ---- one call ----

  /** The words a call may fix are not blank and fit with their newline. */
  lemma RefusedIff(d: Files, words: string, writes: nat, render: Render)
    ensures var (e, reply) := Publish(d, words, writes, render);
      && (reply.Refused? <==> Strip(words) == "" || |Strip(words)| + 1 > 65536 || (d.prepared && d.prose.None?))
      && (reply.Refused? ==> e == d)
  {
    hide Strip;
  }

  /** The words the directory has, or the caller's own, stripped and ended by one newline. */
  function Canonical(d: Files, words: string): string {
    match d.prose
    case Some(prose) => prose
    case None => Strip(words) + "\n"
  }

  /** How many of the three files are not yet what the finished call leaves. */
  function Missing(d: Files, words: string, render: Render): nat {
    (if d.prose.None? then 1 else 0) + (if d.prepared then 0 else 1)
    + (if d.page == Some(render(Canonical(d, words), true)) then 0 else 1)
  }

  /**
    A call that is not refused writes what is missing and nothing else, prose
    before manifest before page. It completes if and only if every write it
    needs lands, and dies with the files of those that did.
  */
  lemma WritesInOrder(d: Files, words: string, writes: nat, render: Render)
    requires !Publish(d, words, writes, render).1.Refused?
    ensures var (e, reply) := Publish(d, words, writes, render);
      && (reply.Done? <==> Missing(d, words, render) <= writes)
      && (e.prose == if d.prose.None? && writes == 0 then None else Some(Canonical(d, words)))
      && (e.prepared <==> d.prepared || writes >= if d.prose.None? then 2 else 1)
      && (e.page == if reply.Done? then Some(render(Canonical(d, words), true)) else d.page)
  {
    hide Strip;
  }

  /** What a completed call answers, and when it answers which of the four. */
  lemma OutcomeIff(d: Files, words: string, writes: nat, render: Render)
    requires Publish(d, words, writes, render).1.Done?
    ensures var (e, reply) := Publish(d, words, writes, render);
      && e.prose == Some(reply.prose)
      && (reply.outcome.Published? <==> d.prose.None?)
      && (reply.outcome.AlreadyPublished? <==> d.prose.Some? && d.prose.value != Strip(words) + "\n")
      && (reply.outcome.Recovered? <==> d.prose == Some(Strip(words) + "\n") && !Ready(d, render))
      && (reply.outcome.Unchanged? <==> d.prose == Some(Strip(words) + "\n") && Ready(d, render))
  {
    hide Strip;
  }

  datatype Call = Call(words: string, writes: nat)

  function PublishAll(d: Files, calls: seq<Call>, render: Render): (Files, seq<Reply>)
    decreases |calls|
  {
    if calls == [] then (d, [])
    else
      var (e, reply) := Publish(d, calls[0].words, calls[0].writes, render);
      var (last, replies) := PublishAll(e, calls[1..], render);
      (last, [reply] + replies)
  }

  /** One call keeps the order of the files and any prose already written. */
  lemma CallKeeps(d: Files, words: string, writes: nat, render: Render)
    requires Ordered(d)
    ensures var (e, reply) := Publish(d, words, writes, render);
      && Ordered(e)
      && (d.prose.Some? ==> e.prose == d.prose)
      && (reply.Done? ==> Ready(e, render) && e.prose == Some(reply.prose))
      && (reply.Refused? <==> !Accepted(words))
      && (Accepted(words) && writes >= 3 ==> reply.Done?)
  {
    hide Strip;
  }

  /**
    For any calls with any words and any crashes: the first prose written never
    changes, and every call that completes returns it.
  */
  lemma {:induction false} ProseIsFixed(d: Files, calls: seq<Call>, render: Render)
    requires Ordered(d)
    ensures var (e, replies) := PublishAll(d, calls, render);
      && Ordered(e) && |replies| == |calls|
      && (d.prose.Some? ==> e.prose == d.prose)
      && (forall i :: 0 <= i < |replies| && replies[i].Done? ==> e.prose == Some(replies[i].prose))
    decreases |calls|
  {
    hide Publish;
    if calls != [] {
      CallKeeps(d, calls[0].words, calls[0].writes, render);
      ProseIsFixed(Publish(d, calls[0].words, calls[0].writes, render).0, calls[1..], render);
    }
  }

  /** An accepted call that makes a write, on a directory without prose, fixes the generation's words. */
  predicate Fixes(call: Call) { Accepted(call.words) && call.writes > 0 }

  /**
    For any calls and crashes from a directory without prose: the generation's
    words are those of the first accepted call that made a write. That call
    alone can answer that it published them, and every other call that
    completes returns them too.
  */
  lemma {:induction false} FirstWordsWin(d: Files, calls: seq<Call>, k: nat, render: Render)
    requires Ordered(d) && d.prose.None?
    requires k < |calls| && Fixes(calls[k]) && forall i :: 0 <= i < k ==> !Fixes(calls[i])
    ensures var (e, replies) := PublishAll(d, calls, render);
      && e.prose == Some(Strip(calls[k].words) + "\n")
      && |replies| == |calls|
      && (forall i :: 0 <= i < |replies| && replies[i].Done? ==> i >= k && replies[i].prose == e.prose.value)
      && (forall i :: 0 <= i < |replies| && replies[i].Done? && replies[i].outcome.Published? ==> i == k)
    decreases |calls|
  {
    hide Publish, Strip, Accepted;
    var (e, reply) := Publish(d, calls[0].words, calls[0].writes, render);
    CallKeeps(d, calls[0].words, calls[0].writes, render);
    FixesIff(d, calls[0], render);
    ProseIsFixed(e, calls[1..], render);
    if k == 0 {
      NeverAgain(e, calls[1..], render);
    } else {
      FirstWordsWin(e, calls[1..], k - 1, render);
    }
    ConsReplies(d, calls, render);
  }

  lemma FixesIff(d: Files, call: Call, render: Render)
    requires Ordered(d) && d.prose.None?
    ensures var (e, reply) := Publish(d, call.words, call.writes, render);
      && e.prose == (if Fixes(call) then Some(Strip(call.words) + "\n") else None)
      && (reply.Done? ==> Fixes(call))
  {
    hide Strip;
  }

  /** Where there is prose, no call publishes any. */
  lemma {:induction false} NeverAgain(d: Files, calls: seq<Call>, render: Render)
    requires Ordered(d) && d.prose.Some?
    ensures forall i :: 0 <= i < |PublishAll(d, calls, render).1| ==>
      PublishAll(d, calls, render).1[i].Done? ==> !PublishAll(d, calls, render).1[i].outcome.Published?
    decreases |calls|
  {
    hide Publish, Strip;
    if calls != [] {
      var (e, reply) := Publish(d, calls[0].words, calls[0].writes, render);
      CallKeeps(d, calls[0].words, calls[0].writes, render);
      if reply.Done? {
        OutcomeIff(d, calls[0].words, calls[0].writes, render);
      }
      NeverAgain(e, calls[1..], render);
    }
  }

  lemma ConsReplies(d: Files, calls: seq<Call>, render: Render)
    requires calls != []
    ensures var (e, reply) := Publish(d, calls[0].words, calls[0].writes, render);
      PublishAll(d, calls, render) ==
        (PublishAll(e, calls[1..], render).0, [reply] + PublishAll(e, calls[1..], render).1)
  {
    hide Publish;
  }

  /** And if there is no such call the directory still has no prose, and nobody was told it had. */
  lemma {:induction false} NobodyWrote(d: Files, calls: seq<Call>, render: Render)
    requires Ordered(d) && d.prose.None? && forall c :: c in calls ==> !Fixes(c)
    ensures var (e, replies) := PublishAll(d, calls, render);
      e.prose.None? && forall r :: r in replies ==> !r.Done?
    decreases |calls|
  {
    hide Publish, Strip, Accepted;
    if calls != [] {
      assert calls[0] in calls;
      CallKeeps(d, calls[0].words, calls[0].writes, render);
      FixesIff(d, calls[0], render);
      NobodyWrote(Publish(d, calls[0].words, calls[0].writes, render).0, calls[1..], render);
    }
  }

  /**
    Whatever crashed before, one call that runs to its end leaves delivery
    prepared and the page rendered, and after that every accepted call writes
    nothing and returns the same words.
  */
  lemma PublishConverges(d: Files, calls: seq<Call>, words: string, again: string, writes: nat, render: Render)
    requires Ordered(d) && Accepted(words) && Accepted(again)
    ensures var before := PublishAll(d, calls, render).0;
      var (e, reply) := Publish(before, words, 3, render);
      && reply.Done? && Ready(e, render) && e.prose == Some(reply.prose)
      && (before.prose.Some? ==> e.prose == before.prose)
      && Publish(e, again, writes, render)
         == (e, Done(if e.prose.value == Normalized(again) then Unchanged else AlreadyPublished, reply.prose))
  {
    hide Strip;
    ProseIsFixed(d, calls, render);
    CallKeeps(PublishAll(d, calls, render).0, words, 3, render);
  }
}
