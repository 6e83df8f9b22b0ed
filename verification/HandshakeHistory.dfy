/**
 * What the steps of a run say about the state that it leads to: which queue pairs a process has made, in
 * order, with which starting numbers; what has arrived on each stream; and what has been told of whom.
 */
module HandshakeHistory {
  import opened Bytes
  import opened Options
  import opened QpCodec
  import opened Handshake
  import opened HandshakeInvariant
  import opened HandshakeSafety

  // ---------------------------------------------------------------- queue pairs made

  predicate Has(s: State, i: nat, side: Side) {
    i < |s.conns| && End(s.conns[i], side).qp.Some?
  }

  /** The side of connection i is on host h. */
  predicate On(cfg: Config, h: nat, i: nat, side: Side) {
    i < |cfg.plans| && HostIndex(cfg.plans[i], side) == h
  }

  /** The step gives its side a queue pair that it had not. */
  predicate Makes(s: State, step: Step, t: State) {
    !Has(s, step.i, step.side) && Has(t, step.i, step.side)
  }

  /** The sides on host h that get a queue pair in the run, in order. */
  function MadeOn(cfg: Config, s: State, run: seq<Step>, h: nat): seq<(nat, Side)>
    decreases |run|
  {
    if run == [] || !Enabled(cfg, s, run[0]) then []
    else
      var step, t := run[0], Apply(cfg, s, run[0]);
      (if Makes(s, step, t) && On(cfg, h, step.i, step.side) then [(step.i, step.side)] else [])
      + MadeOn(cfg, t, run[1..], h)
  }

  function Number(s: State, i: nat, side: Side): nat
    requires Has(s, i, side)
  {
    End(s.conns[i], side).qp.value.sqPsn
  }

  /** A step that makes no queue pair leaves the counters alone; one that does takes its host's number. */
  lemma StepCounts(cfg: Config, s: State, step: Step)
    requires Inv(cfg, s) && Enabled(cfg, s, step)
    ensures var t := Apply(cfg, s, step);
            var h := HostIndex(cfg.plans[step.i], step.side);
            if Makes(s, step, t) then
              && h < |s.psn| && t.psn == s.psn[h := (s.psn[h] + 1) % TWO_32]
              && Number(t, step.i, step.side) == s.psn[h]
            else t.psn == s.psn
  {
    hide NumsOk, NumFree, EncodeQp, DecodeHeader, FlowOk, HeaderOf;
    ConnAt(cfg, s, step.i, step.side);
  }

  lemma OthersKeep(cfg: Config, s: State, step: Step, i: nat, side: Side)
    requires Inv(cfg, s) && Enabled(cfg, s, step)
    ensures var t := Apply(cfg, s, step);
            && (Has(s, i, side) ==> Has(t, i, side) && Number(t, i, side) == Number(s, i, side))
            && (Has(t, i, side) && !Has(s, i, side) ==> i == step.i && side == step.side)
  {
    hide Inv, Enabled, Apply, Follows;
    var t := Apply(cfg, s, step);
    SameConns(cfg, s, step);
    if i < |s.conns| {
      NoStateSkipped(cfg, s, step, i, side);
      if i == step.i && (side != step.side || step.Deliver?) {
        QpStays(cfg, s, step, side);
      }
    }
  }

  lemma SameConns(cfg: Config, s: State, step: Step)
    requires Enabled(cfg, s, step)
    ensures var t := Apply(cfg, s, step);
            && |t.conns| == |s.conns| == |cfg.plans| && |t.psn| == |s.psn| && step.i < |s.conns|
            && forall i: nat :: i < |s.conns| && i != step.i ==> t.conns[i] == s.conns[i]
  {
    hide ApplyConn, NumFree;
  }

  lemma QpStays(cfg: Config, s: State, step: Step, side: Side)
    requires Enabled(cfg, s, step) && (step.Deliver? || side != step.side)
    ensures var t := Apply(cfg, s, step);
            step.i < |t.conns| && End(t.conns[step.i], side).qp == End(s.conns[step.i], side).qp
  {
    hide ApplyConn, NumFree, CanAdvance, CanBreak;
    PeerStays(cfg, s, step, side);
  }

  // ---------------------------------------------------------------- starting numbers

  /** The k-th queue pair made on host h, counted from a state with counter first. */
  predicate NumberedAs(cfg: Config, t: State, h: nat, order: seq<(nat, Side)>, first: nat, k: nat)
    requires k < |order|
  {
    On(cfg, h, order[k].0, order[k].1) && Has(t, order[k].0, order[k].1)
    && Number(t, order[k].0, order[k].1) == (first + k) % TWO_32
  }

  /** The sides in order are those on host h that got their queue pair between s and t, each once. */
  ghost predicate MadeBetween(cfg: Config, s: State, t: State, h: nat, order: seq<(nat, Side)>) {
    && (forall i: nat, side: Side :: On(cfg, h, i, side) ==>
          (Has(t, i, side) <==> Has(s, i, side) || (i, side) in order))
    && (forall x :: x in order ==> On(cfg, h, x.0, x.1) && !Has(s, x.0, x.1))
    && (forall a, b :: 0 <= a < b < |order| ==> order[a] != order[b])
  }

  ghost predicate NumbersKept(s: State, t: State) {
    forall i: nat, side: Side :: Has(s, i, side) ==> Has(t, i, side) && Number(t, i, side) == Number(s, i, side)
  }

  lemma {:induction false} RunCounts(cfg: Config, s: State, run: seq<Step>, t: State, h: nat)
    requires Inv(cfg, s) && Run(cfg, s, run, t) && h < |cfg.hosts|
    ensures |s.psn| == |t.psn| == |cfg.hosts| && NumbersKept(s, t)
    ensures t.psn[h] == (s.psn[h] + |MadeOn(cfg, s, run, h)|) % TWO_32
    ensures MadeBetween(cfg, s, t, h, MadeOn(cfg, s, run, h))
    ensures forall k: nat :: k < |MadeOn(cfg, s, run, h)| ==> NumberedAs(cfg, t, h, MadeOn(cfg, s, run, h), s.psn[h], k)
    decreases |run|
  {
    hide Enabled, Apply, ConnOk, NumsOk, Makes, Has, On, MadeBetween, NumbersKept, NumberedAs;
    if run == [] {
      Nothing(cfg, s, h);
      assert s.psn[h] % TWO_32 == s.psn[h];
    } else {
      StepInv(cfg, s, run[0]);
      RunCounts(cfg, Apply(cfg, s, run[0]), run[1..], t, h);
      FirstMade(cfg, s, run, t, h);
    }
  }

  lemma Nothing(cfg: Config, s: State, h: nat)
    ensures NumbersKept(s, s) && MadeBetween(cfg, s, s, h, [])
  {
  }

  lemma FirstMade(cfg: Config, s: State, run: seq<Step>, t: State, h: nat)
    requires Inv(cfg, s) && run != [] && Enabled(cfg, s, run[0]) && h < |cfg.hosts|
    requires var u := Apply(cfg, s, run[0]);
             var rest := MadeOn(cfg, u, run[1..], h);
             && |u.psn| == |t.psn| == |cfg.hosts| && NumbersKept(u, t)
             && t.psn[h] == (u.psn[h] + |rest|) % TWO_32 && MadeBetween(cfg, u, t, h, rest)
             && forall k: nat :: k < |rest| ==> NumberedAs(cfg, t, h, rest, u.psn[h], k)
    ensures |s.psn| == |cfg.hosts| && NumbersKept(s, t)
    ensures t.psn[h] == (s.psn[h] + |MadeOn(cfg, s, run, h)|) % TWO_32
    ensures MadeBetween(cfg, s, t, h, MadeOn(cfg, s, run, h))
    ensures forall k: nat :: k < |MadeOn(cfg, s, run, h)| ==> NumberedAs(cfg, t, h, MadeOn(cfg, s, run, h), s.psn[h], k)
  {
    hide Inv, Enabled, Apply, Has, Number, NumberedAs, MadeBetween, NumbersKept;
    var step, u := run[0], Apply(cfg, s, run[0]);
    var rest := MadeOn(cfg, u, run[1..], h);
    StepCounts(cfg, s, step);
    SameConns(cfg, s, step);
    KeptFirst(cfg, s, step, t);
    if Makes(s, step, u) && On(cfg, h, step.i, step.side) {
      assert MadeOn(cfg, s, run, h) == [(step.i, step.side)] + rest;
      PsnInRange(cfg, s, h);
      Shifted(s.psn[h], |rest|);
      BetweenMade(cfg, s, step, t, h, rest);
      NumbersShifted(cfg, t, h, (step.i, step.side), rest, s.psn[h], u.psn[h]);
    } else {
      assert MadeOn(cfg, s, run, h) == rest;
      BetweenOther(cfg, s, step, t, h, rest);
    }
  }

  lemma PsnInRange(cfg: Config, s: State, h: nat)
    requires Inv(cfg, s) && h < |cfg.hosts|
    ensures |s.psn| == |cfg.hosts| && s.psn[h] < TWO_32
  {
    hide NumsOk;
  }

  lemma Shifted(first: nat, k: nat)
    ensures ((first + 1) % TWO_32 + k) % TWO_32 == (first + 1 + k) % TWO_32
  {
    var q := (first + 1) / TWO_32;
    assert first + 1 == q * TWO_32 + (first + 1) % TWO_32;
    var x := (first + 1) % TWO_32 + k;
    assert first + 1 + k == (q + x / TWO_32) * TWO_32 + x % TWO_32;
  }

  /** Numbers are kept through the first step and the rest of the run, and the first step's is its host's. */
  lemma KeptFirst(cfg: Config, s: State, step: Step, t: State)
    requires Inv(cfg, s) && Enabled(cfg, s, step) && NumbersKept(Apply(cfg, s, step), t)
    ensures NumbersKept(s, t)
    ensures Makes(s, step, Apply(cfg, s, step)) ==>
              Has(t, step.i, step.side) && HostIndex(cfg.plans[step.i], step.side) < |s.psn|
              && Number(t, step.i, step.side) == s.psn[HostIndex(cfg.plans[step.i], step.side)]
  {
    hide Inv, Enabled, Apply, Has, Number;
    StepCounts(cfg, s, step);
    forall i: nat, side: Side | Has(s, i, side)
      ensures Has(t, i, side) && Number(t, i, side) == Number(s, i, side)
    {
      OthersKeep(cfg, s, step, i, side);
    }
  }

  lemma BetweenMade(cfg: Config, s: State, step: Step, t: State, h: nat, rest: seq<(nat, Side)>)
    requires Inv(cfg, s) && Enabled(cfg, s, step) && MadeBetween(cfg, Apply(cfg, s, step), t, h, rest)
    requires Makes(s, step, Apply(cfg, s, step)) && On(cfg, h, step.i, step.side)
    ensures MadeBetween(cfg, s, t, h, [(step.i, step.side)] + rest)
  {
    hide Inv, Enabled, Apply, Has, On, Number;
    var u, x := Apply(cfg, s, step), (step.i, step.side);
    assert x !in rest;
    forall i: nat, side: Side
      ensures Has(u, i, side) <==> Has(s, i, side) || (i, side) == x
    {
      OthersKeep(cfg, s, step, i, side);
    }
  }

  lemma BetweenOther(cfg: Config, s: State, step: Step, t: State, h: nat, rest: seq<(nat, Side)>)
    requires Inv(cfg, s) && Enabled(cfg, s, step) && MadeBetween(cfg, Apply(cfg, s, step), t, h, rest)
    requires !(Makes(s, step, Apply(cfg, s, step)) && On(cfg, h, step.i, step.side))
    ensures MadeBetween(cfg, s, t, h, rest)
  {
    hide Inv, Enabled, Apply, Has, Number;
    var u := Apply(cfg, s, step);
    forall i: nat, side: Side | On(cfg, h, i, side)
      ensures Has(u, i, side) <==> Has(s, i, side)
    {
      OthersKeep(cfg, s, step, i, side);
    }
  }

  lemma NumbersShifted(cfg: Config, t: State, h: nat, x: (nat, Side), rest: seq<(nat, Side)>, first: nat, next: nat)
    requires first < TWO_32 && next == (first + 1) % TWO_32
    requires On(cfg, h, x.0, x.1) && Has(t, x.0, x.1) && Number(t, x.0, x.1) == first
    requires forall k: nat :: k < |rest| ==> NumberedAs(cfg, t, h, rest, next, k)
    ensures forall k: nat :: k < |[x] + rest| ==> NumberedAs(cfg, t, h, [x] + rest, first, k)
  {
    hide Has, On, Number;
    forall k: nat | k < |[x] + rest|
      ensures NumberedAs(cfg, t, h, [x] + rest, first, k)
    {
      if k > 0 {
        assert NumberedAs(cfg, t, h, rest, next, k - 1);
        Shifted(first, k - 1);
      }
    }
  }

  /**
   * Starting numbers of a process: in every run the k-th queue pair that it makes, from 0, starts from
   * 1 + k cut to four bytes and keeps that number; the counter is as many further as queue pairs were made.
   */
  lemma NumbersInOrder(cfg: Config, s: State, run: seq<Step>, t: State, h: nat)
    requires cfg.Valid() && Initial(cfg, s) && Run(cfg, s, run, t) && h < |cfg.hosts|
    ensures var order := MadeOn(cfg, s, run, h);
            && h < |t.psn| && t.psn[h] == (1 + |order|) % TWO_32
            && (forall k: nat :: k < |order| ==> NumberedAs(cfg, t, h, order, 1, k))
            && (forall i: nat, side: Side :: On(cfg, h, i, side) ==> (Has(t, i, side) <==> (i, side) in order))
            && (forall a, b :: 0 <= a < b < |order| ==> order[a] != order[b])
  {
    hide Run, NumberedAs, Inv;
    InitialInv(cfg, s);
    RunCounts(cfg, s, run, t, h);
    forall i: nat, side: Side
      ensures !Has(s, i, side)
    {
    }
  }

  /** Two queue pairs of one process start from one number exactly if a multiple of 2^32 lies between them. */
  lemma EqualNumbers(cfg: Config, s: State, run: seq<Step>, t: State, h: nat, a: nat, b: nat)
    requires cfg.Valid() && Initial(cfg, s) && Run(cfg, s, run, t) && h < |cfg.hosts|
    requires a < b < |MadeOn(cfg, s, run, h)|
    ensures var order := MadeOn(cfg, s, run, h);
            var x, y := order[a], order[b];
            && x != y && Has(t, x.0, x.1) && Has(t, y.0, y.1)
            && (Number(t, x.0, x.1) == Number(t, y.0, y.1) <==> (b - a) % TWO_32 == 0)
            && (Number(t, x.0, x.1) == Number(t, y.0, y.1) ==> b - a >= TWO_32)
  {
    hide Run, Has, On, Number, MadeOn;
    NumbersInOrder(cfg, s, run, t, h);
    var order := MadeOn(cfg, s, run, h);
    assert NumberedAs(cfg, t, h, order, 1, a) && NumberedAs(cfg, t, h, order, 1, b);
    Congruent(1 + a, 1 + b);
  }

  // ---------------------------------------------------------------- streams

  /** How many bytes that a side wrote the run delivers. */
  function Arrivals(run: seq<Step>, i: nat, side: Side): nat {
    if run == [] then 0
    else (match run[0]
          case Deliver(j, sender, n) => if j == i && sender == side then n else 0
          case _ => 0)
         + Arrivals(run[1..], i, side)
  }

  lemma StepArrives(cfg: Config, s: State, step: Step, i: nat, side: Side)
    requires Enabled(cfg, s, step) && i < |s.conns|
    ensures var t := Apply(cfg, s, step);
            && i < |t.conns|
            && From(t.conns[i], side).arrived == From(s.conns[i], side).arrived + Arrivals([step], i, side)
  {
    hide NumFree, EncodeQp, DecodeHeader;
    assert [step][1..] == [];
  }

  lemma {:induction false} RunArrives(cfg: Config, s: State, run: seq<Step>, t: State, i: nat, side: Side)
    requires Run(cfg, s, run, t) && i < |s.conns|
    ensures i < |t.conns| && From(t.conns[i], side).arrived == From(s.conns[i], side).arrived + Arrivals(run, i, side)
    decreases |run|
  {
    hide Enabled, Apply;
    if run != [] {
      StepArrives(cfg, s, run[0], i, side);
      RunArrives(cfg, Apply(cfg, s, run[0]), run[1..], t, i, side);
      assert [run[0]][1..] == [];
    }
  }

  /** What has arrived is what was delivered, and never more than was written. */
  lemma ArrivedIsDelivered(cfg: Config, s: State, run: seq<Step>, t: State, i: nat, side: Side)
    requires cfg.Valid() && Initial(cfg, s) && Run(cfg, s, run, t) && i < |t.conns|
    ensures From(t.conns[i], side).arrived == Arrivals(run, i, side) <= |From(t.conns[i], side).sent|
  {
    hide Run, Inv;
    InitialInv(cfg, s);
    RunInv(cfg, s, run, t);
    SameNumberOfConns(cfg, s, t);
    RunArrives(cfg, s, run, t, i, side);
    PipesFit(cfg, t, i, side);
  }

  lemma SameNumberOfConns(cfg: Config, s: State, t: State)
    requires Inv(cfg, s) && Inv(cfg, t)
    ensures |s.conns| == |t.conns|
  {
    hide ConnOk, NumsOk;
  }

  lemma PipesFit(cfg: Config, s: State, i: nat, side: Side)
    requires Inv(cfg, s) && i < |s.conns|
    ensures From(s.conns[i], side).arrived <= |From(s.conns[i], side).sent|
  {
    hide NumsOk, EncodeQp, HeaderOf;
    ConnAt(cfg, s, i, side);
  }

  /** A write that breaks after n bytes has written exactly the first n of the message, and ends the side. */
  lemma BrokenWrite(cfg: Config, s: State, i: nat, side: Side, n: nat)
    requires cfg.Valid() && Reachable(cfg, s) && Enabled(cfg, s, Break(i, side, n)) && End(s.conns[i], side).qp.Some?
    requires Next(side, End(s.conns[i], side).pc) == Send
    ensures var c, d := s.conns[i], Apply(cfg, s, Break(i, side, n)).conns[i];
            var host := cfg.hosts[HostIndex(cfg.plans[i], side)];
            && n <= |EncodeQp(InfoOf(host, End(c, side).qp.value))|
            && From(d, side).sent == EncodeQp(InfoOf(host, End(c, side).qp.value))[..n]
            && End(d, side).failed && End(d, side).qp.Some?
            && End(d, side).qp.value.state == Error && !End(d, side).qp.value.held
  {
    hide Reachable, NumsOk, NumFree, EncodeQp, HeaderOf;
    ReachableInv(cfg, s);
    ConnAt(cfg, s, i, side);
  }

  /**
   * A connector tells of its queue pair only once it is in INIT; an acceptor only once its own is ready to
   * send and holds the peer's user data. A connector in RTS holds the peer's user data.
   */
  lemma ToldWhenReady(cfg: Config, s: State, i: nat, side: Side)
    requires cfg.Valid() && Reachable(cfg, s) && i < |s.conns|
    ensures var c := s.conns[i];
            var e := End(c, side);
            && (From(c, side).sent != [] ==>
                  && e.qp.Some? && e.qp.value.state != Reset
                  && (side == Acceptor ==>
                        && e.qp.value.state in {Rts, Error} && e.remote.Some?
                        && e.qp.value.userData == e.remote.value.userData))
            && (e.qp.Some? && e.qp.value.state == Rts && side == Connector ==>
                  e.remote.Some? && e.qp.value.userData == e.remote.value.userData)
  {
    hide Reachable, NumsOk, EncodeQp, HeaderOf;
    ReachableInv(cfg, s);
    ConnAt(cfg, s, i, side);
  }
}
