/**
 Session ids under wrapping arithmetic. Sessions are told apart by serial numbers
 here, which the code does not have, so that a map keyed by session id can be
 seen to hold, or to lose, the right registration.
 */
module SessionIds {
  import opened Basics
  import opened Mux

  const SPACE: nat := 0x1_0000_0000

  /** `owner` is the sessions map, with the serial number of the session that registered. */
  datatype Registry = Registry(nextSid: u32, issued: nat, owner: map<u32, nat>)

  function Fresh(): Registry {
    Registry(0, 0, map[])
  }

  /** The id that the serial-th call of next_session_id returns. */
  function SidOf(serial: nat): u32 {
    serial % SPACE
  }

  datatype Op = Allocate | RegisterSerial(serial: nat) | DropSerial(serial: nat) | ResetAll

  predicate Legal(r: Registry, op: Op) {
    match op
    case RegisterSerial(serial) => 1 <= serial <= r.issued
    case DropSerial(serial) => 1 <= serial <= r.issued
    case _ => true
  }

  function Apply(r: Registry, op: Op): Registry {
    match op
    case Allocate => r.(nextSid := Successor(r.nextSid), issued := r.issued + 1)
    case RegisterSerial(serial) => r.(owner := r.owner[SidOf(serial) := serial])
    case DropSerial(serial) => r.(owner := r.owner - {SidOf(serial)})
    case ResetAll => r.(owner := map[])
  }

  /** The registry after a run, if every operation in it was legal. */
  function Run(ops: seq<Op>): Option<Registry> {
    if ops == [] then Some(Fresh())
    else
      var last := ops[|ops| - 1];
      match Run(ops[..|ops| - 1])
      case None => None
      case Some(r) => if Legal(r, last) then Some(Apply(r, last)) else None
  }

  /** After any run the last id issued is its serial number modulo 2^32, and registrations are under their own ids. */
  lemma {:induction false} IdsAreSerials(ops: seq<Op>)
    requires Run(ops).Some?
    ensures var r := Run(ops).value;
            && r.nextSid == SidOf(r.issued)
            && forall sid | sid in r.owner :: 1 <= r.owner[sid] <= r.issued && SidOf(r.owner[sid]) == sid
  {
    if ops != [] {
      IdsAreSerials(ops[..|ops| - 1]);
      var r := Run(ops[..|ops| - 1]).value;
      SuccessorOfSerial(r.issued);
    }
  }

  lemma SuccessorOfSerial(serial: nat)
    ensures Successor(SidOf(serial)) == SidOf(serial + 1)
  {
  }

  /** Two sessions share an id exactly when a multiple of 2^32 lies between them; closer ones never do. */
  lemma SameIdIffCongruent(a: nat, b: nat)
    requires a <= b
    ensures SidOf(a) == SidOf(b) <==> (b - a) % SPACE == 0
    ensures a < b < a + SPACE ==> SidOf(a) != SidOf(b)
  {
  }

  /** The registrations of other sessions that an operation takes away. */
  function Victims(r: Registry, op: Op): set<nat> {
    match op
    case RegisterSerial(serial) => set sid | sid in r.owner && sid == SidOf(serial) && r.owner[sid] != serial :: r.owner[sid]
    case DropSerial(serial) => set sid | sid in r.owner && sid == SidOf(serial) && r.owner[sid] != serial :: r.owner[sid]
    case _ => {}
  }

  predicate Near(a: nat, b: nat) {
    a < b + SPACE && b < a + SPACE
  }

  /**
   Registering or dropping one session takes the registration of another away
   exactly when a live session's serial differs from it by a nonzero multiple of
   2^32. So as long as every live session is fewer than 2^32 allocations away, no
   registration is overwritten, and a dying session drops none but its own.
   */
  lemma OnlyWrappedIdsCollide(ops: seq<Op>, op: Op, serial: nat)
    requires Run(ops).Some? && Legal(Run(ops).value, op)
    requires op == RegisterSerial(serial) || op == DropSerial(serial)
    ensures var r := Run(ops).value;
            && (Victims(r, op) != {} <==>
                  exists sid | sid in r.owner :: r.owner[sid] != serial && SidOf(r.owner[sid]) == SidOf(serial))
            && ((forall sid | sid in r.owner :: Near(r.owner[sid], serial)) ==> Victims(r, op) == {})
            && (forall sid | sid in r.owner && r.owner[sid] !in Victims(r, op) && r.owner[sid] != serial ::
                  sid in Apply(r, op).owner && Apply(r, op).owner[sid] == r.owner[sid])
  {
    IdsAreSerials(ops);
    var r := Run(ops).value;
    if sid :| sid in r.owner && r.owner[sid] != serial && SidOf(r.owner[sid]) == SidOf(serial) {
      assert r.owner[sid] in Victims(r, op);
      if Near(r.owner[sid], serial) {
        if r.owner[sid] < serial {
          SameIdIffCongruent(r.owner[sid], serial);
        } else {
          SameIdIffCongruent(serial, r.owner[sid]);
        }
      }
    }
  }

  function Allocations(n: nat): seq<Op> {
    seq(n, _ => Allocate)
  }

  lemma OneOp(ops: seq<Op>, op: Op)
    requires Run(ops).Some? && Legal(Run(ops).value, op)
    ensures Run(ops + [op]) == Some(Apply(Run(ops).value, op))
  {
    assert (ops + [op])[..|ops|] == ops;
  }

  /** Allocating changes the counters and no registration. */
  lemma {:induction false} AllocateMany(ops: seq<Op>, n: nat)
    requires Run(ops).Some?
    ensures var r := Run(ops).value;
            Run(ops + Allocations(n)) == Some(Registry(SidOf(r.issued + n), r.issued + n, r.owner))
  {
    IdsAreSerials(ops);
    if n == 0 {
      assert ops + Allocations(0) == ops;
    } else {
      AllocateMany(ops, n - 1);
      assert ops + Allocations(n) == (ops + Allocations(n - 1)) + [Allocate];
      OneOp(ops + Allocations(n - 1), Allocate);
      SuccessorOfSerial(Run(ops).value.issued + n - 1);
    }
  }

  /** The first session registers, and then 2^32 more ids are issued. */
  function OneRound(): seq<Op> {
    [Allocate, RegisterSerial(1)] + Allocations(SPACE)
  }

  lemma FirstRegisters()
    ensures Run([Allocate, RegisterSerial(1)]) == Some(Registry(1, 1, map[1 := 1]))
  {
    assert Run([]) == Some(Fresh());
    OneOp([], Allocate);
    assert [] + [Allocate] == [Allocate];
    OneOp([Allocate], RegisterSerial(1));
    assert [Allocate] + [RegisterSerial(1)] == [Allocate, RegisterSerial(1)];
  }

  /**
   The collision is real. In a run that issues 2^32 further ids while the first
   session is registered, the first session's id comes round again: registering the
   new session takes the first one's registration away, so does dropping it, and if
   it has registered, the first session's dying removes the new registration.
   */
  lemma FirstCollision()
    ensures Run(OneRound()) == Some(Registry(1, 1 + SPACE, map[1 := 1]))
    ensures var registered := Run(OneRound() + [RegisterSerial(1 + SPACE)]);
            registered.Some? && registered.value.owner == map[1 := 1 + SPACE]
    ensures var dropped := Run(OneRound() + [DropSerial(1 + SPACE)]);
            dropped.Some? && dropped.value.owner == map[]
    ensures var died := Run(OneRound() + [RegisterSerial(1 + SPACE)] + [DropSerial(1)]);
            died.Some? && died.value.owner == map[]
  {
    hide Run;
    FirstRegisters();
    AllocateMany([Allocate, RegisterSerial(1)], SPACE);
    OneOp(OneRound(), RegisterSerial(1 + SPACE));
    OneOp(OneRound(), DropSerial(1 + SPACE));
    OneOp(OneRound() + [RegisterSerial(1 + SPACE)], DropSerial(1));
  }

  // ---------------------------------------------------------------------------
  // The registry and the mux
  // ---------------------------------------------------------------------------

  /** What an operation is on the mux, which does not know serial numbers. */
  function OnMux(m: MuxState, op: Op): MuxState {
    match op
    case Allocate => m.(nextSid := Successor(m.nextSid))
    case RegisterSerial(serial) => Register(m, SidOf(serial))
    case DropSerial(serial) => Unregister(m, SidOf(serial))
    case ResetAll => ResetMux(m)
  }

  function MuxAfter(ops: seq<Op>): MuxState {
    if ops == [] then NewMux() else OnMux(MuxAfter(ops[..|ops| - 1]), ops[|ops| - 1])
  }

  /** After any run the mux has issued the same id last, and has the same ids registered. */
  lemma {:induction false} RegistryIsMux(ops: seq<Op>)
    requires Run(ops).Some?
    ensures MuxAfter(ops).nextSid == Run(ops).value.nextSid && MuxAfter(ops).sessions == Run(ops).value.owner.Keys
  {
    if ops != [] {
      RegistryIsMux(ops[..|ops| - 1]);
    }
  }
}
