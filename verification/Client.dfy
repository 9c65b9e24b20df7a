/** The client's loops: waiting for a verdict, waiting for a link, dispatching, and reconnecting with a delay. */
module Client {
  import opened Basics
  import opened Frames
  import opened Reassembly
  import opened Traces
  import opened Mux

  // ---------------------------------------------------------------------------
  // Waiting for a verdict
  // ---------------------------------------------------------------------------

  datatype Verdict = Connected | Refused(reason: Bytes) | ChannelClosed | TimedOut

  /** How many of the frames a wait takes, and whether it ends with one of them. */
  datatype Wait = Wait(used: nat, verdict: Option<Verdict>)

  function Awaited(frames: seq<Frame>): Wait {
    if frames == [] then Wait(0, None)
    else
      var before := Awaited(frames[..|frames| - 1]);
      if before.verdict.Some? then before
      else match frames[|frames| - 1].frameType
        case ConnectOk => Wait(before.used + 1, Some(Connected))
        case ConnectErr => Wait(before.used + 1, Some(Refused(frames[|frames| - 1].payload)))
        case _ => Wait(before.used + 1, None)
  }

  /** A wait takes frames up to the first verdict, and that is its result; without one it takes them all. */
  lemma {:induction false} AwaitedIsFirstVerdict(frames: seq<Frame>)
    ensures var w := Awaited(frames);
            && w.used <= |frames|
            && (forall i | 0 <= i < w.used - 1 :: frames[i].frameType !in {ConnectOk, ConnectErr})
            && (w.verdict.None? ==> w.used == |frames| && forall f | f in frames :: f.frameType !in {ConnectOk, ConnectErr})
            && (w.verdict.Some? ==>
                  && w.used > 0
                  && (if w.verdict.value.Connected? then frames[w.used - 1].frameType.ConnectOk?
                      else frames[w.used - 1].frameType.ConnectErr?
                           && w.verdict.value == Refused(frames[w.used - 1].payload)))
  {
    if frames != [] {
      AwaitedIsFirstVerdict(frames[..|frames| - 1]);
    }
  }

  lemma AwaitedOneMore(frames: seq<Frame>, k: nat)
    requires k < |frames| && Awaited(frames[..k]) == Wait(k, None)
    ensures Awaited(frames[..k + 1]) ==
            Wait(k + 1, match frames[k].frameType
                        case ConnectOk => Some(Connected)
                        case ConnectErr => Some(Refused(frames[k].payload))
                        case _ => None)
  {
    assert frames[..k + 1][..k] == frames[..k];
  }

  /** The frames after the one that decided make no difference. */
  lemma {:induction false} AwaitedStops(frames: seq<Frame>, k: nat)
    requires k <= |frames| && Awaited(frames[..k]).verdict.Some?
    ensures Awaited(frames) == Awaited(frames[..k])
    decreases |frames|
  {
    if k == |frames| {
      assert frames[..k] == frames;
    } else {
      var init := frames[..|frames| - 1];
      assert init[..k] == frames[..k];
      AwaitedStops(init, k);
    }
  }

  lemma NothingAwaited()
    ensures Awaited([]) == Wait(0, None)
  {
  }

  /**
   The wait loop: receives until the first verdict, and discards whatever comes before
   it. It gives up when the timer fires, here after `patience` frames or once nothing
   more comes, and when the channel is empty and its sending half is gone.
   */
  method AwaitVerdict(rx: Channel, open: bool, patience: nat) returns (verdict: Verdict, used: nat)
    modifies rx`frames
    ensures var w := Awaited(old(rx.frames)[..Min(patience, |old(rx.frames)|)]);
            && used == w.used
            && verdict == if w.verdict.Some? then w.verdict.value
                          else if patience <= |old(rx.frames)| || open then TimedOut
                          else ChannelClosed
    ensures used <= |old(rx.frames)| && rx.frames == old(rx.frames)[used..]
  {
    hide Awaited;
    used := 0;
    ghost var all := rx.frames;
    ghost var seen := all[..Min(patience, |all|)];
    assert seen[..0] == [];
    NothingAwaited();
    while rx.frames != [] && used < patience
      invariant used <= |seen| && rx.frames == all[used..]
      invariant Awaited(seen[..used]) == Wait(used, None)
      decreases |rx.frames|
    {
      var next := rx.Recv();
      var f := next.value;
      assert all[used..][0] == f && all[used..][1..] == rx.frames;
      AwaitedOneMore(seen, used);
      used := used + 1;
      match f.frameType {
        case ConnectOk => AwaitedStops(seen, used); verdict := Connected; return;
        case ConnectErr => AwaitedStops(seen, used); verdict := Refused(f.payload); return;
        case _ =>
      }
    }
    assert seen[..used] == seen;
    verdict := if used == patience || open then TimedOut else ChannelClosed;
  }

  // ---------------------------------------------------------------------------
  // Events
  // ---------------------------------------------------------------------------

  /** The events that end the wait for a link. */
  predicate Settles(e: Event, link: LinkId) {
    e == LinkEstablished(link, true) || e == LinkClosed(link)
  }

  /**
   establish_link: gives up at once if create_link did; otherwise reads events until
   the link is up or closed, and ignores all others, data included. `used` counts the
   events read; running out of events is the closed event channel.
   */
  method EstablishLink(mux: MuxHandle, created: Option<LinkId>, events: seq<Event>) returns (up: bool, used: nat)
    requires mux.Valid()
    modifies mux`linkId
    ensures mux.Valid() && used <= |events|
    ensures mux.linkId == if up then created else old(mux.linkId)
    ensures created.None? ==> !up && used == 0
    ensures created.Some? ==>
              && (forall i | 0 <= i < used - 1 ::
                    events[i] != LinkEstablished(created.value, true) && events[i] != LinkClosed(created.value))
              && (up <==> used > 0 && events[used - 1] == LinkEstablished(created.value, true))
              && (!up ==> || (used > 0 && events[used - 1] == LinkClosed(created.value))
                          || (used == |events| && forall e | e in events ::
                                e != LinkEstablished(created.value, true) && e != LinkClosed(created.value)))
  {
    used := 0;
    up := false;
    if created.None? {
      return;
    }
    var link := created.value;
    while used < |events|
      invariant used <= |events|
      invariant forall i | 0 <= i < used :: !Settles(events[i], link)
      invariant !up && mux.Valid() && mux.linkId == old(mux.linkId)
    {
      var event := events[used];
      used := used + 1;
      if event == LinkEstablished(link, true) {
        mux.SetLinkId(link);
        up := true;
        return;
      } else if event == LinkClosed(link) {
        return;
      }
    }
  }

  // ---------------------------------------------------------------------------
  // Dispatching
  // ---------------------------------------------------------------------------

  /** What a channel holds after some frames were dispatched: nothing new if its receiver is gone. */
  ghost function Filled(before: seq<Frame>, alive: bool, frames: seq<Frame>, sid: u32): seq<Frame> {
    if alive then before + Trace(frames, sid) else before
  }

  lemma FilledGrows(before: seq<Frame>, alive: bool, frames: seq<Frame>, k: nat, sid: u32)
    requires k < |frames|
    ensures Filled(before, alive, frames[..k + 1], sid) ==
            Filled(before, alive, frames[..k], sid)
            + (if alive && frames[k].sessionId == sid then [frames[k]] else [])
  {
    assert frames[..k + 1] == frames[..k] + [frames[k]];
    Append(frames[..k], frames[k], sid);
  }

  /**
   LinkData in the dispatch phase, while no other task runs: every registered
   session whose receiver is alive gets exactly its frames, in order, and nobody
   else gets anything.
   */
  method OnLinkData(mux: MuxHandle, data: Bytes)
    requires mux.Valid()
    modifies mux`recvBuf, set sid | sid in mux.sessions :: mux.sessions[sid]
    ensures mux.Valid() && mux.sessions == old(mux.sessions)
    ensures mux.State() == old(mux.State()).(recvBuf := Drain(old(mux.recvBuf) + data).rest)
    ensures forall sid | sid in mux.sessions ::
              mux.sessions[sid].frames ==
                Filled(old(mux.sessions[sid].frames), old(mux.sessions[sid].receiverAlive),
                       Drain(old(mux.recvBuf) + data).frames, sid)
  {
    hide Trace, Drain, Filled;
    var frames := mux.ReceiveData(data);
    ghost var state := mux.State();
    NothingFilled();
    for k := 0 to |frames|
      invariant mux.Valid() && mux.sessions == old(mux.sessions) && mux.State() == state
      invariant forall sid | sid in mux.sessions ::
                  mux.sessions[sid].receiverAlive == old(mux.sessions[sid].receiverAlive)
      invariant forall sid | sid in mux.sessions ::
                  mux.sessions[sid].frames ==
                    Filled(old(mux.sessions[sid].frames), old(mux.sessions[sid].receiverAlive), frames[..k], sid)
    {
      forall sid | sid in mux.sessions
        ensures Filled(old(mux.sessions[sid].frames), old(mux.sessions[sid].receiverAlive), frames[..k + 1], sid) ==
                mux.sessions[sid].frames
                + (if mux.sessions[sid].receiverAlive && frames[k].sessionId == sid then [frames[k]] else [])
      {
        FilledGrows(old(mux.sessions[sid].frames), old(mux.sessions[sid].receiverAlive), frames, k, sid);
      }
      mux.Dispatch(frames[k]);
    }
    assert frames[..|frames|] == frames;
  }

  lemma NothingFilled()
    ensures forall before, alive, sid :: Filled(before, alive, [], sid) == before
  {
    forall before, alive, sid
      ensures Filled(before, alive, [], sid) == before
    {
      assert before + [] == before;
    }
  }

  // ---------------------------------------------------------------------------
  // Reconnecting
  // ---------------------------------------------------------------------------

  datatype Attempt = NoPath | NoIdentity | NoLink | Up

  const MAX_DELAY: nat := 30

  /** The delay after a failed attempt. */
  function NextDelay(delay: nat, attempt: Attempt): nat {
    match attempt
    case NoPath => Min(delay * 2, MAX_DELAY)
    case NoIdentity => Min(delay * 2, MAX_DELAY)
    case NoLink => Min(delay * 2 + 1, MAX_DELAY)
    case Up => delay
  }

  /** The delay slept before the next attempt, after the given ones have failed. */
  function DelayAfter(failures: seq<Attempt>): nat {
    if failures == [] then 0
    else NextDelay(DelayAfter(failures[..|failures| - 1]), failures[|failures| - 1])
  }

  function LinkFailures(failures: seq<Attempt>): nat {
    if failures == [] then 0
    else LinkFailures(failures[..|failures| - 1]) + (if failures[|failures| - 1].NoLink? then 1 else 0)
  }

  function Pow2(n: nat): (p: nat)
    ensures p >= 1
  {
    if n == 0 then 1 else 2 * Pow2(n - 1)
  }

  lemma NoDelayAtFirst()
    ensures DelayAfter([]) == 0
  {
  }

  lemma DelayStep(failures: seq<Attempt>, k: nat)
    requires k < |failures|
    ensures DelayAfter(failures[..k + 1]) == NextDelay(DelayAfter(failures[..k]), failures[k])
  {
    assert failures[..k + 1][..k] == failures[..k];
  }

  /** The reconnection loop of one episode: sleep, try, adjust the delay, until a link is up. */
  method Reconnect(attempts: seq<Attempt>) returns (slept: seq<nat>, up: bool)
    ensures |slept| <= |attempts|
    ensures forall i | 0 <= i < |slept| :: slept[i] == DelayAfter(attempts[..i])
    ensures up ==> slept != [] && attempts[|slept| - 1].Up? && forall i | 0 <= i < |slept| - 1 :: !attempts[i].Up?
    ensures !up ==> |slept| == |attempts| && forall a | a in attempts :: !a.Up?
    ensures slept != [] ==> slept[0] == 0
    ensures forall i, j | 0 <= i < j < |slept| && j == i + 1 ::
              && (attempts[i].NoPath? || attempts[i].NoIdentity? ==> slept[j] == Min(2 * slept[i], 30))
              && (attempts[i].NoLink? ==> slept[j] == Min(2 * slept[i] + 1, 30))
  {
    hide DelayAfter;
    var delay := 0;
    assert attempts[..0] == [] && DelayAfter([]) == 0 by { NoDelayAtFirst(); }
    slept := [];
    up := false;
    while |slept| < |attempts|
      invariant |slept| <= |attempts| && !up
      invariant delay == DelayAfter(attempts[..|slept|])
      invariant forall i | 0 <= i < |slept| :: slept[i] == DelayAfter(attempts[..i]) && !attempts[i].Up?
      invariant if slept == [] then delay == 0 else slept[0] == 0
      invariant slept != [] ==> delay == NextDelay(slept[|slept| - 1], attempts[|slept| - 1])
      invariant forall i, j | 0 <= i < j < |slept| && j == i + 1 :: slept[j] == NextDelay(slept[i], attempts[i])
    {
      var attempt := attempts[|slept|];
      DelayStep(attempts, |slept|);
      slept := slept + [delay];
      match attempt {
        case NoPath => delay := Min(delay * 2, MAX_DELAY);
        case NoIdentity => delay := Min(delay * 2, MAX_DELAY);
        case NoLink => delay := Min(delay * 2 + 1, MAX_DELAY);
        case Up => up := true; return;
      }
    }
  }

  /** Within an episode the delay never falls and never exceeds thirty seconds. */
  lemma {:induction false} DelayIsMonotone(failures: seq<Attempt>, i: nat)
    requires i <= |failures|
    ensures DelayAfter(failures[..i]) <= DelayAfter(failures) <= 30
    decreases |failures|
  {
    if i == |failures| {
      assert failures[..i] == failures;
      if failures != [] {
        DelayIsMonotone(failures[..i - 1], i - 1);
      }
    } else {
      var init := failures[..|failures| - 1];
      DelayIsMonotone(init, i);
      assert init[..i] == failures[..i];
    }
  }

  /**
   After k failures to establish a link the delay is at least 2^k - 1 seconds, or
   thirty; it is exactly that when nothing else failed; and it stays zero as long
   as only path and identity lookups fail.
   */
  lemma {:induction false} DelayGrows(failures: seq<Attempt>)
    requires forall a | a in failures :: !a.Up?
    ensures DelayAfter(failures) >= Min(Pow2(LinkFailures(failures)) - 1, 30)
    ensures LinkFailures(failures) == |failures| ==> DelayAfter(failures) == Min(Pow2(|failures|) - 1, 30)
    ensures DelayAfter(failures) == 0 <==> LinkFailures(failures) == 0
    decreases |failures|
  {
    if failures != [] {
      var init := failures[..|failures| - 1];
      DelayGrows(init);
      LinkFailuresBounded(init);
    }
  }

  lemma {:induction false} LinkFailuresBounded(failures: seq<Attempt>)
    ensures LinkFailures(failures) <= |failures|
  {
    if failures != [] {
      LinkFailuresBounded(failures[..|failures| - 1]);
    }
  }
}
