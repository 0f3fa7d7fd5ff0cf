/** The RSA dispatcher: the message list is built once at start-up, then a
    periodic timer (one period a second) hands one message per period,
    wrapped with the RSA message id, to the J2735 codec for an encode and
    decode round trip whose result is only logged, and cancels itself once
    the cursor reaches the end of the list. */
module RsaMessageCreator {
  import opened Values
  import opened MessageLoop
  import opened RsaValueCreator
  import UuidMatching

  /** DSRCmsgID `roadSideAlert` of SAE J2735. */
  const RsaMessageId: int := 27

  /** What the codec is given: `{messageId, value}`, the value being the
      message as built. */
  datatype Envelope = Envelope(messageId: int, value: RsaMessage)

  /** The J2735 codec: JSON to UPER-encoded text, and back; either call may
      throw. */
  datatype Codec = Codec(convertToJ2735: Envelope -> Result<string>, convertToJson: string -> Result<string>)

  /** `processMessage`: wraps the message, encodes it, decodes the encoding
      and logs both texts; any exception is caught and logged instead. The
      result is what gets logged; nothing escapes to the caller. */
  function ProcessMessage(codec: Codec, message: RsaMessage): (logged: Result<(string, string)>)
    ensures logged.Ok? ==> codec.convertToJ2735(Envelope(RsaMessageId, message)) == Ok(logged.value.0)
    ensures logged.Ok? ==> codec.convertToJson(logged.value.0) == Ok(logged.value.1)
    ensures logged.Ok? <==> codec.convertToJ2735(Envelope(RsaMessageId, message)).Ok?
                             && codec.convertToJson(codec.convertToJ2735(Envelope(RsaMessageId, message)).value).Ok?
  {
    match codec.convertToJ2735(Envelope(RsaMessageId, message))
    case Err(e) => Err(e)
    case Ok(j2735Result) =>
      match codec.convertToJson(j2735Result)
      case Err(e) => Err(e)
      case Ok(jsonResult) => Ok((j2735Result, jsonResult))
  }

  /** The envelopes of `messages`, in order: what the codec has been given
      once they have all been sent. */
  function Envelopes(messages: seq<RsaMessage>): (r: seq<Envelope>)
    ensures |r| == |messages|
    ensures forall k :: 0 <= k < |messages| ==> r[k] == Envelope(RsaMessageId, messages[k])
  {
    if messages == [] then []
    else Envelopes(messages[..|messages| - 1]) + [Envelope(RsaMessageId, messages[|messages| - 1])]
  }

  // ----- The timer as a state machine -----

  /** The cursor and whether the periodic timer is still registered. */
  datatype TimerState = TimerState(currentIndex: int, active: bool)

  /** One period of the timer over a list of `size` messages: while it is
      registered and the list is non-empty and not exhausted, one message is
      sent, the cursor advances, and the timer is cancelled once the cursor
      reaches the end. */
  function TickSpec(size: nat, s: TimerState): (t: TimerState)
    ensures t.currentIndex == s.currentIndex + 1 <==> s.active && 0 < size && s.currentIndex < size
    ensures t.currentIndex != s.currentIndex + 1 ==> t == s
    ensures t.active ==> s.active
    ensures s.active && !t.active ==> t.currentIndex == size
    ensures s.active && 0 < size && s.currentIndex + 1 == size ==> !t.active
  {
    if s.active && size > 0 && s.currentIndex < size then
      TimerState(s.currentIndex + 1, s.currentIndex + 1 < size)
    else s
  }

  /** `ticks` periods of the timer: the cursor never goes back and moves at
      most one step a period, and a cancelled timer is never registered
      again. */
  function AfterTicks(size: nat, s: TimerState, ticks: nat): (t: TimerState)
    ensures s.currentIndex <= t.currentIndex <= s.currentIndex + ticks
    ensures t.active ==> s.active
  {
    if ticks == 0 then s else TickSpec(size, AfterTicks(size, s, ticks - 1))
  }

  /** From the start, each period sends the next message: after `ticks`
      periods the cursor is at `ticks` and the timer still runs while
      messages remain; once all are sent the timer is cancelled and the
      cursor stays at the size. An empty list sends nothing and its timer is
      never cancelled. */
  lemma {:induction false} AfterTicksFromStart(size: nat, ticks: nat)
    ensures AfterTicks(size, TimerState(0, true), ticks) ==
              if size == 0 then TimerState(0, true)
              else if ticks < size then TimerState(ticks, true)
              else TimerState(size, false)
  {
    if ticks > 0 {
      AfterTicksFromStart(size, ticks - 1);
    }
  }

  /** From any state whose cursor is within the list (and short of its end
      while the timer runs), the cursor stays within it, never goes back,
      moves at most one step a period, a cancelled timer has reached the
      end, and only that stops the cursor advancing every period. */
  lemma {:induction false} AfterTicksBounds(size: nat, s: TimerState, ticks: nat)
    requires 0 <= s.currentIndex <= size
    requires s.active && size > 0 ==> s.currentIndex < size
    ensures var t := AfterTicks(size, s, ticks);
            && s.currentIndex <= t.currentIndex <= size
            && t.currentIndex <= s.currentIndex + ticks
            && (t.active && size > 0 ==> t.currentIndex < size)
            && (s.active && !t.active ==> t.currentIndex == size)
            && (s.active && size > 0 && t.currentIndex < s.currentIndex + ticks ==> t.currentIndex == size && !t.active)
  {
    if ticks > 0 {
      AfterTicksBounds(size, s, ticks - 1);
    }
  }

  /** The verticle: the message list, the cursor (a static field, 0 when the
      class is loaded), the periodic timer, and the envelopes the codec has
      been given so far. */
  class Dispatcher {
    var jsonMessages: seq<RsaMessage>
    var currentIndex: int
    var timerActive: bool
    ghost var sent: seq<Envelope>

    /** The cursor is within the list and every message before it, and no
        other, has been sent, in order; a cancelled timer has sent them all,
        and a running one over a non-empty list has one left to send. */
    ghost predicate Valid()
      reads this
    {
      && 0 <= currentIndex <= |jsonMessages|
      && sent == Envelopes(jsonMessages[..currentIndex])
      && (!timerActive ==> currentIndex == |jsonMessages|)
      && (timerActive && jsonMessages != [] ==> currentIndex < |jsonMessages|)
    }

    function State(): TimerState
      reads this
    {
      TimerState(currentIndex, timerActive)
    }

    /** Before `start`: no list, no timer, nothing sent. */
    constructor ()
      ensures Valid() && jsonMessages == [] && currentIndex == 0 && !timerActive && sent == []
    {
      jsonMessages := [];
      currentIndex := 0;
      timerActive := false;
      sent := [];
    }

    /** `start`: builds the message list once and registers the timer; when
        building the list throws, no timer is registered. */
    method Start(counter: Counter, conv: Conversions, store: UuidMatching.EntityStore)
      requires Valid() && jsonMessages == [] && currentIndex == 0 && !timerActive
      requires counter.Valid()
      modifies this, counter
      ensures Valid() && counter.Valid() && currentIndex == 0 && sent == []
      ensures UuidMatching.Join(store).Err? ==>
                !timerActive && jsonMessages == [] && counter.msgCnt == old(counter.msgCnt)
      ensures UuidMatching.Join(store).Ok? ==>
                var run := RsaRun(conv, UuidMatching.Facts(UuidMatching.Join(store).value), old(counter.msgCnt));
                && counter.msgCnt == run.msgCnt
                && timerActive == run.messages.Ok?
                && jsonMessages == (if run.messages.Ok? then run.messages.value else [])
    {
      var messages := CreateRsaMessage(counter, conv, store);
      if messages.Ok? {
        jsonMessages := messages.value;
        timerActive := true;
      }
    }

    /** One period of the timer: the next message goes through
        `processMessage` (which catches whatever the codec throws) and the
        cursor advances regardless; the timer cancels itself once the
        cursor reaches the end of the list. */
    method Tick(codec: Codec)
      requires Valid()
      modifies this
      ensures Valid()
      ensures jsonMessages == old(jsonMessages)
      ensures State() == TickSpec(|jsonMessages|, old(State()))
    {
      if timerActive && jsonMessages != [] && currentIndex < |jsonMessages| {
        var message := jsonMessages[currentIndex];
        var _ := ProcessMessage(codec, message);
        assert jsonMessages[..currentIndex + 1][..currentIndex] == jsonMessages[..currentIndex];
        sent := sent + [Envelope(RsaMessageId, message)];
        currentIndex := currentIndex + 1;
        if currentIndex >= |jsonMessages| {
          timerActive := false;
        }
      }
    }

    /** `ticks` periods of the timer. */
    method RunTimer(codec: Codec, ticks: nat)
      requires Valid()
      modifies this
      ensures Valid()
      ensures jsonMessages == old(jsonMessages)
      ensures State() == AfterTicks(|jsonMessages|, old(State()), ticks)
    {
      var i := 0;
      while i < ticks
        invariant 0 <= i <= ticks
        invariant Valid()
        invariant jsonMessages == old(jsonMessages)
        invariant State() == AfterTicks(|jsonMessages|, old(State()), i)
      {
        Tick(codec);
        i := i + 1;
      }
    }
  }

  /** Started on a list of `size` messages, the timer has sent them all,
      once each and in list order, and cancelled itself after `size`
      periods; later periods send nothing more. */
  lemma DrainedAfterSize(messages: seq<RsaMessage>, ticks: nat)
    requires messages != [] && ticks >= |messages|
    ensures AfterTicks(|messages|, TimerState(0, true), ticks) == TimerState(|messages|, false)
    ensures Envelopes(messages[..AfterTicks(|messages|, TimerState(0, true), ticks).currentIndex])
            == Envelopes(messages)
  {
    AfterTicksFromStart(|messages|, ticks);
    assert messages[..|messages|] == messages;
  }
}
