/** The loop both message assemblers share: the joined records are taken
    in order, each goes through a loop body that may append one message,
    may advance the process-wide `DE_MsgCount` counter (0..127) and may
    throw; an exception the loop does not catch ends the batch. The body is
    a parameter here, so that what holds of every such loop is proved once. */
module MessageLoop {
  import opened Values

  /** `DE_MsgCount` runs over 0..127. */
  const MsgCountModulus: int := 128

  /** What one pass of the loop body does with one record. */
  datatype Outcome<+M> =
    | Built(message: M)                                      // appended to the output
    | Dropped(cause: Option<Exception>, counterUsed: bool)   // skipped, or caught inside the loop
    | Escaped(error: Exception, counterUsed: bool)           // not caught: the batch fails

  /** The counter after one record: advanced whenever the record got past
      the increment, whether or not a message was added. */
  function CounterAfter<M>(outcome: Outcome<M>, msgCnt: int): (r: int)
    ensures 0 <= msgCnt < MsgCountModulus ==> 0 <= r < MsgCountModulus
    ensures outcome.Built? ==> r == (msgCnt + 1) % MsgCountModulus
    ensures !outcome.Built? && outcome.counterUsed ==> r == (msgCnt + 1) % MsgCountModulus
    ensures !outcome.Built? && !outcome.counterUsed ==> r == msgCnt
  {
    if outcome.Built? || outcome.counterUsed then (msgCnt + 1) % MsgCountModulus else msgCnt
  }

  /** The output list (or the exception that escaped) and the counter. */
  datatype Batch<+M> = Batch(messages: Result<seq<M>>, msgCnt: int)

  /** The loop over `facts` from counter `msgCnt`, `step` being its body:
      the first escaping exception ends it. */
  function Run<M>(step: (Fact, int) -> Outcome<M>, facts: seq<Fact>, msgCnt: int): Batch<M> {
    if facts == [] then Batch(Ok([]), msgCnt)
    else
      var prev := Run(step, facts[..|facts| - 1], msgCnt);
      if prev.messages.Err? then prev
      else
        var outcome := step(facts[|facts| - 1], prev.msgCnt);
        match outcome
        case Escaped(e, _) => Batch(Err(e), CounterAfter(outcome, prev.msgCnt))
        case Built(m) => Batch(Ok(prev.messages.value + [m]), CounterAfter(outcome, prev.msgCnt))
        case Dropped(_, _) => Batch(prev.messages, CounterAfter(outcome, prev.msgCnt))
  }

  /** The process-wide counter of one message creator (a static field of
      its class), and the loop that consumes it. */
  class Counter {
    var msgCnt: int

    ghost predicate Valid()
      reads this
    {
      0 <= msgCnt < MsgCountModulus
    }

    /** The counter starts at 0 when the class is loaded. */
    constructor ()
      ensures Valid() && msgCnt == 0
    {
      msgCnt := 0;
    }

    /** The loop over the records: `step` is the loop body; a message is
        appended, the counter advanced when the body got past the increment,
        and an escaping exception ends the loop and the batch. */
    method RunBatch<M>(step: (Fact, int) -> Outcome<M>, facts: seq<Fact>) returns (messages: Result<seq<M>>)
      requires Valid()
      modifies this
      ensures Valid()
      ensures var run := Run(step, facts, old(msgCnt));
              messages == run.messages && msgCnt == run.msgCnt
    {
      var output: seq<M> := [];
      var i := 0;
      while i < |facts|
        invariant 0 <= i <= |facts|
        invariant Run(step, facts[..i], old(msgCnt)) == Batch(Ok(output), msgCnt)
        invariant Valid()
      {
        assert facts[..i + 1][..i] == facts[..i];
        var outcome := step(facts[i], msgCnt);
        match outcome {
          case Built(message) =>
            msgCnt := (msgCnt + 1) % MsgCountModulus;
            output := output + [message];
          case Dropped(_, counterUsed) =>
            if counterUsed {
              msgCnt := (msgCnt + 1) % MsgCountModulus;
            }
          case Escaped(e, counterUsed) =>
            if counterUsed {
              msgCnt := (msgCnt + 1) % MsgCountModulus;
            }
            RunErrorPersists(step, facts, old(msgCnt), i + 1);
            return Err(e);
        }
        i := i + 1;
      }
      assert facts[..|facts|] == facts;
      messages := Ok(output);
    }
  }

  /** Once the loop has failed, later records change nothing. */
  lemma {:induction false} RunErrorPersists<M>(step: (Fact, int) -> Outcome<M>, facts: seq<Fact>, msgCnt: int, n: nat)
    requires n <= |facts|
    requires Run(step, facts[..n], msgCnt).messages.Err?
    ensures Run(step, facts, msgCnt) == Run(step, facts[..n], msgCnt)
    decreases |facts| - n
  {
    if n < |facts| {
      assert facts[..n + 1][..n] == facts[..n];
      RunErrorPersists(step, facts, msgCnt, n + 1);
    } else {
      assert facts[..n] == facts;
    }
  }

  /** The counter stays a `DE_MsgCount`, and the output holds at most one
      message per record. */
  lemma {:induction false} RunBounds<M>(step: (Fact, int) -> Outcome<M>, facts: seq<Fact>, msgCnt: int)
    requires 0 <= msgCnt < MsgCountModulus
    ensures var run := Run(step, facts, msgCnt);
            && 0 <= run.msgCnt < MsgCountModulus
            && (run.messages.Ok? ==> |run.messages.value| <= |facts|)
  {
    if facts != [] {
      RunBounds(step, facts[..|facts| - 1], msgCnt);
    }
  }

  /** The batch fails exactly when some record throws an exception the loop
      does not catch, `escapes` telling which records do whatever the
      counter. */
  lemma {:induction false} RunFailsIffEscape<M>(step: (Fact, int) -> Outcome<M>, escapes: Fact -> bool,
                                                facts: seq<Fact>, msgCnt: int)
    requires forall fact, k :: step(fact, k).Escaped? <==> escapes(fact)
    ensures Run(step, facts, msgCnt).messages.Err? <==> exists i :: 0 <= i < |facts| && escapes(facts[i])
  {
    if facts != [] {
      var init := facts[..|facts| - 1];
      RunFailsIffEscape(step, escapes, init, msgCnt);
      if exists i :: 0 <= i < |init| && escapes(init[i]) {
        var i :| 0 <= i < |init| && escapes(init[i]);
        assert facts[i] == init[i];
      }
      if exists i :: 0 <= i < |facts| && escapes(facts[i]) {
        var i :| 0 <= i < |facts| && escapes(facts[i]);
        if i < |init| {
          assert init[i] == facts[i];
        }
      }
    }
  }

  /** The counter after `k` increments modulo 128. */
  function Advance(msgCnt: int, k: nat): int {
    if k == 0 then msgCnt else (Advance(msgCnt, k - 1) + 1) % MsgCountModulus
  }

  /** Two records: the second runs from the counter the first leaves,
      unless the first escaped. */
  lemma RunPair<M>(step: (Fact, int) -> Outcome<M>, a: Fact, b: Fact, msgCnt: int)
    ensures var first := step(a, msgCnt);
            var afterFirst := CounterAfter(first, msgCnt);
            var second := step(b, afterFirst);
            Run(step, [a, b], msgCnt) ==
              if first.Escaped? then Batch(Err(first.error), afterFirst)
              else if second.Escaped? then Batch(Err(second.error), CounterAfter(second, afterFirst))
              else Batch(Ok((if first.Built? then [first.message] else [])
                            + (if second.Built? then [second.message] else [])),
                         CounterAfter(second, afterFirst))
  {
    assert [a, b][..1] == [a];
    assert [a][..0] == [];
    var first := step(a, msgCnt);
    var firstMessages: seq<M> := if first.Built? then [first.message] else [];
    assert firstMessages + [] == firstMessages;
    if first.Built? {
      var none: seq<M> := [];
      assert none + [first.message] == firstMessages;
    }
    if first.Escaped? {
      assert Run(step, [a], msgCnt) == Batch(Err(first.error), CounterAfter(first, msgCnt));
    } else {
      assert Run(step, [a], msgCnt) == Batch(Ok(firstMessages), CounterAfter(first, msgCnt));
    }
  }

  lemma CounterStep(position: int, msgCnt: int)
    requires msgCnt == position % MsgCountModulus
    ensures (msgCnt + 1) % MsgCountModulus == (position + 1) % MsgCountModulus
  {
  }

  /** From a counter in range, `k` increments land on `(msgCnt + k) mod 128`. */
  lemma {:induction false} AdvanceIsModular(msgCnt: int, k: nat)
    requires 0 <= msgCnt < MsgCountModulus
    ensures Advance(msgCnt, k) == (msgCnt + k) % MsgCountModulus
  {
    if k > 0 {
      AdvanceIsModular(msgCnt, k - 1);
      CounterStep(msgCnt + k - 1, Advance(msgCnt, k - 1));
    }
  }

  /** When every record yields a message, the output has one message per
      record, in order, the message of record `i` built with the counter
      advanced `i` times, and the counter ends advanced once per record. */
  lemma {:induction false} RunAllBuilt<M>(step: (Fact, int) -> Outcome<M>, facts: seq<Fact>, msgCnt: int)
    requires forall i, k :: 0 <= i < |facts| ==> step(facts[i], k).Built?
    ensures var run := Run(step, facts, msgCnt);
            && run.messages.Ok?
            && |run.messages.value| == |facts|
            && run.msgCnt == Advance(msgCnt, |facts|)
            && forall i :: 0 <= i < |facts| ==> run.messages.value[i] == step(facts[i], Advance(msgCnt, i)).message
  {
    if facts != [] {
      var n := |facts| - 1;
      var init := facts[..n];
      assert forall i :: 0 <= i < n ==> init[i] == facts[i];
      RunAllBuilt(step, init, msgCnt);
      var prev := Run(step, init, msgCnt);
      var out := prev.messages.value + [step(facts[n], prev.msgCnt).message];
      assert Run(step, facts, msgCnt) == Batch(Ok(out), (prev.msgCnt + 1) % MsgCountModulus);
      forall i | 0 <= i < |facts|
        ensures out[i] == step(facts[i], Advance(msgCnt, i)).message
      {
        if i < n {
          assert out[i] == prev.messages.value[i];
        }
      }
    }
  }

  /** Running two lists of records one after the other, the second from
      the counter the first leaves, is running their concatenation: the
      output keeps the records' order. */
  lemma {:induction false} RunAppend<M>(step: (Fact, int) -> Outcome<M>, a: seq<Fact>, b: seq<Fact>, msgCnt: int)
    ensures var first := Run(step, a, msgCnt);
            var second := Run(step, b, first.msgCnt);
            Run(step, a + b, msgCnt) ==
              if first.messages.Err? then first
              else if second.messages.Err? then second
              else Batch(Ok(first.messages.value + second.messages.value), second.msgCnt)
  {
    var first := Run(step, a, msgCnt);
    if b == [] {
      assert a + b == a;
      if first.messages.Ok? {
        assert first.messages.value + [] == first.messages.value;
      }
    } else {
      var init := b[..|b| - 1];
      assert (a + b)[..|a + b| - 1] == a + init;
      assert (a + b)[|a + b| - 1] == b[|b| - 1];
      RunAppend(step, a, init, msgCnt);
      if first.messages.Ok? {
        var mid := Run(step, init, first.msgCnt);
        if mid.messages.Ok? {
          var outcome := step(b[|b| - 1], mid.msgCnt);
          if outcome.Built? {
            assert first.messages.value + (mid.messages.value + [outcome.message])
                == (first.messages.value + mid.messages.value) + [outcome.message];
          }
        }
      }
    }
  }

  /** When every record yields a message carrying the counter value it was
      built with (`countOf` reads it), the messages are numbered
      consecutively modulo 128 from the counter the batch starts with. */
  lemma RunConsecutive<M>(step: (Fact, int) -> Outcome<M>, countOf: M -> int, facts: seq<Fact>, msgCnt: int)
    requires 0 <= msgCnt < MsgCountModulus
    requires forall i, k :: 0 <= i < |facts| ==> step(facts[i], k).Built? && countOf(step(facts[i], k).message) == k
    ensures var run := Run(step, facts, msgCnt);
            && run.messages.Ok?
            && |run.messages.value| == |facts|
            && run.msgCnt == (msgCnt + |facts|) % MsgCountModulus
            && forall i :: 0 <= i < |facts| ==> countOf(run.messages.value[i]) == (msgCnt + i) % MsgCountModulus
  {
    RunAllBuilt(step, facts, msgCnt);
    AdvanceIsModular(msgCnt, |facts|);
    forall i | 0 <= i < |facts|
      ensures Advance(msgCnt, i) == (msgCnt + i) % MsgCountModulus
    {
      AdvanceIsModular(msgCnt, i);
    }
  }

  /** When no record escapes and no record gets past the increment without
      yielding a message, the counter advances exactly once per message: the
      messages are numbered consecutively modulo 128 by their place in the
      output, whatever records were skipped before the increment, and the
      counter ends one step past the last of them. */
  lemma {:induction false} RunNumbersByMessage<M>(step: (Fact, int) -> Outcome<M>, countOf: M -> int,
                                                  facts: seq<Fact>, msgCnt: int)
    requires 0 <= msgCnt < MsgCountModulus
    requires forall i, k :: 0 <= i < |facts| ==>
               && !step(facts[i], k).Escaped?
               && (step(facts[i], k).Dropped? ==> !step(facts[i], k).counterUsed)
               && (step(facts[i], k).Built? ==> countOf(step(facts[i], k).message) == k)
    ensures var run := Run(step, facts, msgCnt);
            && run.messages.Ok?
            && run.msgCnt == (msgCnt + |run.messages.value|) % MsgCountModulus
            && forall j :: 0 <= j < |run.messages.value| ==>
                 countOf(run.messages.value[j]) == (msgCnt + j) % MsgCountModulus
  {
    if facts != [] {
      var n := |facts| - 1;
      var init := facts[..n];
      assert forall i :: 0 <= i < n ==> init[i] == facts[i];
      RunNumbersByMessage(step, countOf, init, msgCnt);
      var prev := Run(step, init, msgCnt);
      var outcome := step(facts[n], prev.msgCnt);
      if outcome.Built? {
        var out := prev.messages.value + [outcome.message];
        assert Run(step, facts, msgCnt) == Batch(Ok(out), (prev.msgCnt + 1) % MsgCountModulus);
        CounterStep(msgCnt + |prev.messages.value|, prev.msgCnt);
        forall j | 0 <= j < |out|
          ensures countOf(out[j]) == (msgCnt + j) % MsgCountModulus
        {
          if j < |prev.messages.value| {
            assert out[j] == prev.messages.value[j];
          }
        }
      } else {
        assert Run(step, facts, msgCnt) == Batch(prev.messages, prev.msgCnt);
      }
    }
  }
}
