/**
  The byte budget of an egress tunnel (app/egress_agent.py:243-253, 348-368): two pumps, one in each direction,
  share one ceiling.  Everything between two awaits of a pump is one atomic step, and the steps of the two
  pumps interleave in any order.
 */
module TunnelBudget {

  type Byte = bv8

  const TUNNEL_BUFFER_BYTES: nat := 65536

  /** Where a pump is: before its loop guard, reading, with a chunk to account for, with an accounted chunk, or over. */
  datatype Pc = Head | Reading | Holding(chunk: seq<Byte>) | Granted(chunk: seq<Byte>, allowed: nat) | Over(end: End)

  /** Why it is over: its source ended, the budget did, or a timeout or an error ended it. */
  datatype End = Finished | Starved | Lost

  datatype Pump = Pump(pc: Pc, source: seq<Byte>, position: nat, written: seq<Byte>)

  datatype Tunnel = Tunnel(ceiling: int, used: int, out: Pump, back: Pump)

  /** What a read brings: bytes, the end of the stream, nothing in time, or an error. */
  datatype Arrival = Data(n: nat) | EndOfStream | Silence | Broken

  datatype Step = Guard | Read(arrival: Arrival) | Consume | Write(drains: bool)

  datatype Event = Event(outward: bool, step: Step)

  function Fresh(source: seq<Byte>): Pump { Pump(Head, source, 0, []) }

  function Open(ceiling: int, a: seq<Byte>, b: seq<Byte>): Tunnel { Tunnel(ceiling, 0, Fresh(a), Fresh(b)) }

  function Min(a: int, b: int): int { if a < b then a else b }

  function Max(a: int, b: int): int { if a < b then b else a }

  /** consume: what is left of the ceiling, at most. */
  function Allowed(ceiling: int, used: int, size: nat): (n: nat)
    ensures n <= size && (used <= Max(0, ceiling) ==> used + n <= Max(0, ceiling))
    ensures n < size ==> used + n >= ceiling
  {
    Min(size, Max(0, ceiling - used))
  }

  predicate Enabled(p: Pump, s: Step) {
    match s
    case Guard => p.pc.Head?
    case Read(Data(n)) => p.pc.Reading? && 1 <= n <= TUNNEL_BUFFER_BYTES && p.position + n <= |p.source|
    case Read(EndOfStream) => p.pc.Reading? && p.position == |p.source|
    case Read(_) => p.pc.Reading?
    case Consume => p.pc.Holding?
    case Write(_) => p.pc.Granted? && p.pc.allowed <= |p.pc.chunk|
  }

  /** One step of one pump: its new state and the new `used`. */
  function Moved(ceiling: int, used: int, p: Pump, s: Step): (Pump, int)
    requires Enabled(p, s)
  {
    match s
    case Guard => if used < ceiling then (p.(pc := Reading), used) else (p.(pc := Over(Starved)), used)
    case Read(Data(n)) => (p.(pc := Holding(p.source[p.position..p.position + n]), position := p.position + n), used)
    case Read(EndOfStream) => (p.(pc := Over(Finished)), used)
    case Read(_) => (p.(pc := Over(Lost)), used)
    case Consume =>
      var allowed := Allowed(ceiling, used, |p.pc.chunk|);
      (p.(pc := if allowed == 0 then Over(Starved) else Granted(p.pc.chunk, allowed)), used + allowed)
    case Write(drains) =>
      var cut := p.pc.allowed < |p.pc.chunk|;
      (p.(pc := if !drains then Over(Lost) else if cut then Over(Starved) else Head,
          written := p.written + p.pc.chunk[..p.pc.allowed]), used)
  }

  function Next(t: Tunnel, e: Event): Tunnel {
    var p := if e.outward then t.out else t.back;
    if !Enabled(p, e.step) then t
    else
      var (q, used) := Moved(t.ceiling, t.used, p, e.step);
      if e.outward then t.(used := used, out := q) else t.(used := used, back := q)
  }

  function Run(t: Tunnel, events: seq<Event>): Tunnel
    decreases |events|
  {
    if events == [] then t else Run(Next(t, events[0]), events[1..])
  }

  // ---- the invariant ----

  /** Bytes accounted for but not yet written. */
  function InHand(p: Pump): nat { if p.pc.Granted? then p.pc.allowed else 0 }

  /** Bytes read and not yet written. */
  function Chunk(p: Pump): seq<Byte> {
    match p.pc
    case Holding(chunk) => chunk
    case Granted(chunk, _) => chunk
    case _ => []
  }

  ghost predicate PumpOk(p: Pump) {
    && p.position <= |p.source|
    && p.written <= p.source
    && |p.written| + |Chunk(p)| <= p.position
    && (!p.pc.Over? ==> p.source[..p.position] == p.written + Chunk(p))
    && (p.pc == Over(Finished) ==> p.written == p.source)
    && (p.pc.Granted? ==> 1 <= p.pc.allowed <= |p.pc.chunk|)
    && (p.pc.Holding? ==> |p.pc.chunk| >= 1)
  }

  /** What has been used is exactly what has been forwarded or is in hand; a pump that ends short means the ceiling is used up. */
  ghost predicate Inv(t: Tunnel) {
    && PumpOk(t.out) && PumpOk(t.back)
    && t.used == |t.out.written| + |t.back.written| + InHand(t.out) + InHand(t.back)
    && t.used <= Max(0, t.ceiling)
    && (Short(t.out) || Short(t.back) ==> t.used >= t.ceiling)
  }

  /** It ended by the budget, or something it read is not, and will not be, written. */
  predicate Short(p: Pump) {
    p.pc == Over(Starved) || (p.pc.Over? && |p.written| < p.position) || (p.pc.Granted? && p.pc.allowed < |p.pc.chunk|)
  }

  lemma MovedOk(ceiling: int, used: int, p: Pump, s: Step)
    requires Enabled(p, s) && PumpOk(p) && used <= Max(0, ceiling) && (Short(p) ==> used >= ceiling)
    ensures var (q, used1) := Moved(ceiling, used, p, s);
            && PumpOk(q) && used <= used1 <= Max(0, ceiling) && (Short(q) ==> used1 >= ceiling)
            && used1 - used == |q.written| - |p.written| + InHand(q) - InHand(p)
            && q.source == p.source
  {
    var (q, used1) := Moved(ceiling, used, p, s);
    match s
    case Read(Data(n)) =>
      assert p.source[..p.position + n] == p.source[..p.position] + p.source[p.position..p.position + n];
    case Write(_) =>
      assert q.written == p.source[..|q.written|];
      assert !q.pc.Over? ==> p.pc.chunk[..p.pc.allowed] == p.pc.chunk;
    case Read(_) =>
      assert p.source[..p.position] == p.written;
    case _ =>
  }

  lemma NextKeeps(t: Tunnel, e: Event)
    requires Inv(t)
    ensures Inv(Next(t, e)) && Next(t, e).ceiling == t.ceiling
    ensures Next(t, e).out.source == t.out.source && Next(t, e).back.source == t.back.source
  {
    hide PumpOk;
    hide Moved;
    hide InHand;
    hide Short;
    var p := if e.outward then t.out else t.back;
    if Enabled(p, e.step) {
      MovedOk(t.ceiling, t.used, p, e.step);
    }
  }

  lemma {:induction false} RunKeeps(t: Tunnel, events: seq<Event>)
    requires Inv(t)
    ensures Inv(Run(t, events)) && Run(t, events).ceiling == t.ceiling
    ensures Run(t, events).out.source == t.out.source && Run(t, events).back.source == t.back.source
    decreases |events|
  {
    hide Inv;
    hide Next;
    if events != [] {
      NextKeeps(t, events[0]);
      RunKeeps(Next(t, events[0]), events[1..]);
    }
  }

  /**
    Every interleaving of the two pumps: together they never forward more than the ceiling, and `used` is
    exactly what they forwarded plus what they hold accounted.  Each destination has received a prefix of its
    source: the whole source if the pump ended with it, and unless the whole ceiling is used everything that
    was read and is not still held.
   */
  lemma NeverOverTheCeiling(ceiling: int, a: seq<Byte>, b: seq<Byte>, events: seq<Event>)
    ensures var t := Run(Open(ceiling, a, b), events);
            && |t.out.written| + |t.back.written| + InHand(t.out) + InHand(t.back) == t.used <= Max(0, ceiling)
            && Forwards(t.out, a, t.used < ceiling) && Forwards(t.back, b, t.used < ceiling)
  {
    hide Run;
    RunKeeps(Open(ceiling, a, b), events);
    var t := Run(Open(ceiling, a, b), events);
    ForwardsOk(t.out, t.used < ceiling);
    ForwardsOk(t.back, t.used < ceiling);
  }

  predicate Forwards(p: Pump, source: seq<Byte>, left: bool) {
    && p.written <= source && p.position <= |source|
    && (p.pc == Over(Finished) ==> p.written == source)
    && (left ==> p.written + Chunk(p) == source[..p.position] && p.pc != Over(Starved))
  }

  lemma ForwardsOk(p: Pump, left: bool)
    requires PumpOk(p) && (Short(p) ==> !left)
    ensures Forwards(p, p.source, left)
  {
    if left && p.pc.Over? {
      assert p.written == p.source[..p.position];
    }
  }

  // ---- every pump ends ----

  function PumpRank(p: Pump): nat
    requires p.position <= |p.source|
  {
    var left := 4 * (|p.source| - p.position);
    match p.pc
    case Head => left + 2
    case Reading => left + 1
    case Holding(_) => left + 4
    case Granted(_, _) => left + 3
    case Over(_) => 0
  }

  lemma MovedDrops(ceiling: int, used: int, p: Pump, s: Step)
    requires Enabled(p, s) && PumpOk(p)
    ensures Moved(ceiling, used, p, s).0.position <= |p.source| && Moved(ceiling, used, p, s).0.source == p.source
    ensures PumpRank(Moved(ceiling, used, p, s).0) < PumpRank(p)
  {
  }

  /** A step that can happen brings its pump nearer to its end; one that cannot changes nothing. */
  lemma NextDrops(t: Tunnel, e: Event)
    requires Inv(t)
    ensures Inv(Next(t, e))
    ensures var r := PumpRank(Next(t, e).out) + PumpRank(Next(t, e).back);
            if Enabled(if e.outward then t.out else t.back, e.step) then r < PumpRank(t.out) + PumpRank(t.back)
            else Next(t, e) == t
  {
    hide PumpRank;
    hide Moved;
    hide Enabled;
    NextKeeps(t, e);
    var p := if e.outward then t.out else t.back;
    if Enabled(p, e.step) {
      MovedDrops(t.ceiling, t.used, p, e.step);
    }
  }
}

module EgressTunnel {
  import opened TunnelBudget

  class ByteBudget {
    const ceiling: int
    var used: int

    constructor (ceiling: int)
      ensures this.ceiling == ceiling && used == 0
    {
      this.ceiling := ceiling;
      used := 0;
    }

    method Consume(size: nat) returns (allowed: nat)
      modifies this
      ensures allowed == Allowed(ceiling, old(used), size) && used == old(used) + allowed
    {
      var left := ceiling - used;
      if left < 0 { left := 0; }
      allowed := if size < left then size else left;
      used := used + allowed;
    }
  }

  /** One direction of the tunnel, stopped between two awaits. */
  class PumpTask {
    const budget: ByteBudget
    const source: seq<Byte>
    var pc: Pc
    var position: nat
    var destination: seq<Byte>

    ghost function View(): Pump
      reads this
    {
      Pump(pc, source, position, destination)
    }

    constructor (budget: ByteBudget, source: seq<Byte>)
      ensures this.budget == budget && this.source == source && View() == Fresh(source)
    {
      this.budget, this.source := budget, source;
      pc, position, destination := Head, 0, [];
    }

    method LoopGuard()
      requires Enabled(View(), Guard)
      modifies this
      ensures (View(), budget.used) == Moved(budget.ceiling, budget.used, old(View()), Guard)
    {
      if budget.used < budget.ceiling {
        pc := Reading;
      } else {
        pc := Over(Starved);
      }
    }

    method Receive(arrival: Arrival)
      requires Enabled(View(), Read(arrival))
      modifies this
      ensures (View(), budget.used) == Moved(budget.ceiling, budget.used, old(View()), Read(arrival))
    {
      if arrival.Data? {
        pc := Holding(source[position..position + arrival.n]);
        position := position + arrival.n;
      } else {
        pc := Over(if arrival.EndOfStream? then Finished else Lost);
      }
    }

    method Account()
      requires Enabled(View(), Consume)
      modifies this, budget
      ensures (View(), budget.used) == Moved(budget.ceiling, old(budget.used), old(View()), Consume)
    {
      var chunk := pc.chunk;
      var allowed := budget.Consume(|chunk|);
      if allowed == 0 {
        pc := Over(Starved);
      } else {
        pc := Granted(chunk, allowed);
      }
    }

    method Forward(drains: bool)
      requires Enabled(View(), Write(drains))
      modifies this
      ensures (View(), budget.used) == Moved(budget.ceiling, budget.used, old(View()), Write(drains))
    {
      destination := destination + pc.chunk[..pc.allowed];
      var cut := pc.allowed < |pc.chunk|;
      pc := if !drains then Over(Lost) else if cut then Over(Starved) else Head;
    }
  }
}
