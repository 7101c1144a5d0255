/** The byte counters of an instance, each the total that is shown, and the base
    and reset offset that tie it to what the running process reports. */
module ByteCounter {
  const MAX: nat := 0xFFFF_FFFF_FFFF_FFFF

  type uint64 = n: nat | n <= MAX

  function Min(a: nat, b: nat): nat {
    if a <= b then a else b
  }

  /** uint64 addition and subtraction, which wrap around. */
  function WrapAdd(a: uint64, b: uint64): uint64 {
    if a + b <= MAX then a + b else a + b - (MAX + 1)
  }

  function WrapSub(a: uint64, b: uint64): uint64 {
    if a >= b then a - b else a - b + (MAX + 1)
  }

  datatype Counter = Counter(total: uint64, base: uint64, reset: uint64)

  /** applyCounter: a snapshot of the process reports value. */
  function Applied(c: Counter, value: uint64): Counter {
    var rebased := if value >= c.reset then c.reset else 0;
    Counter(Min(MAX, c.base + (value - rebased)), c.base, rebased)
  }

  /** The reset action. */
  function Cleared(c: Counter): Counter {
    Counter(0, 0, WrapAdd(c.reset, WrapSub(c.total, c.base)))
  }

  /** A new process starts counting from zero. */
  function Rebased(c: Counter): Counter {
    Counter(c.total, c.total, 0)
  }

  /** What a counter read from the state file looks like. */
  function Loaded(total: uint64): Counter {
    Counter(total, 0, 0)
  }

  /** The source's applyCounter, which writes through two pointers. */
  method ApplyCounter(base: uint64, reset: uint64, value: uint64)
    returns (destination: uint64, newReset: uint64)
    ensures value >= reset ==> newReset == reset && destination == Min(MAX, base + value - reset)
    ensures value < reset ==> newReset == 0 && destination == Min(MAX, base + value)
  {
    newReset := reset;
    var delta: uint64;
    if value >= newReset {
      delta := WrapSub(value, newReset);
    } else {
      delta := value;
      newReset := 0;
    }
    if delta > WrapSub(MAX, base) {
      destination := MAX;
    } else {
      destination := WrapAdd(base, delta);
    }
  }

  /** The four counters of an instance, in the order of its fields. */
  datatype Counters = Counters(tcpRX: Counter, tcpTX: Counter, udpRX: Counter, udpTX: Counter)

  /** One number for each: what a process reports, or what the state file holds. */
  datatype Values = Values(tcpRX: uint64, tcpTX: uint64, udpRX: uint64, udpTX: uint64)

  const NOTHING := Values(0, 0, 0, 0)

  datatype Line = TcpRX | TcpTX | UdpRX | UdpTX

  function CounterOf(c: Counters, line: Line): Counter {
    match line
    case TcpRX => c.tcpRX
    case TcpTX => c.tcpTX
    case UdpRX => c.udpRX
    case UdpTX => c.udpTX
  }

  function ValueOf(v: Values, line: Line): uint64 {
    match line
    case TcpRX => v.tcpRX
    case TcpTX => v.tcpTX
    case UdpRX => v.udpRX
    case UdpTX => v.udpTX
  }

  function AllApplied(c: Counters, v: Values): Counters {
    Counters(Applied(c.tcpRX, v.tcpRX), Applied(c.tcpTX, v.tcpTX), Applied(c.udpRX, v.udpRX), Applied(c.udpTX, v.udpTX))
  }

  function AllCleared(c: Counters): Counters {
    Counters(Cleared(c.tcpRX), Cleared(c.tcpTX), Cleared(c.udpRX), Cleared(c.udpTX))
  }

  function AllRebased(c: Counters): Counters {
    Counters(Rebased(c.tcpRX), Rebased(c.tcpTX), Rebased(c.udpRX), Rebased(c.udpTX))
  }

  function AllLoaded(v: Values): Counters {
    Counters(Loaded(v.tcpRX), Loaded(v.tcpTX), Loaded(v.udpRX), Loaded(v.udpTX))
  }

  class Traffic {
    var TCPRX: uint64
    var TCPTX: uint64
    var UDPRX: uint64
    var UDPTX: uint64
    var tcpRXBase: uint64
    var tcpTXBase: uint64
    var udpRXBase: uint64
    var udpTXBase: uint64
    var tcpRXReset: uint64
    var tcpTXReset: uint64
    var udpRXReset: uint64
    var udpTXReset: uint64

    function State(): Counters
      reads this
    {
      Counters(Counter(TCPRX, tcpRXBase, tcpRXReset), Counter(TCPTX, tcpTXBase, tcpTXReset),
               Counter(UDPRX, udpRXBase, udpRXReset), Counter(UDPTX, udpTXBase, udpTXReset))
    }

    constructor (saved: Values)
      ensures State() == AllLoaded(saved)
    {
      TCPRX, TCPTX, UDPRX, UDPTX := saved.tcpRX, saved.tcpTX, saved.udpRX, saved.udpTX;
      tcpRXBase, tcpTXBase, udpRXBase, udpTXBase := 0, 0, 0, 0;
      tcpRXReset, tcpTXReset, udpRXReset, udpTXReset := 0, 0, 0, 0;
    }

    /** An upload of the child is received traffic, a download is sent. */
    method ApplySnapshot(tcpUpload: uint64, tcpDownload: uint64, udpUpload: uint64, udpDownload: uint64)
      modifies this
      ensures State() == AllApplied(old(State()), Values(tcpUpload, tcpDownload, udpUpload, udpDownload))
    {
      TCPRX, tcpRXReset := ApplyCounter(tcpRXBase, tcpRXReset, tcpUpload);
      TCPTX, tcpTXReset := ApplyCounter(tcpTXBase, tcpTXReset, tcpDownload);
      UDPRX, udpRXReset := ApplyCounter(udpRXBase, udpRXReset, udpUpload);
      UDPTX, udpTXReset := ApplyCounter(udpTXBase, udpTXReset, udpDownload);
    }

    method Reset()
      modifies this
      ensures State() == AllCleared(old(State()))
    {
      ResetTCP();
      ResetUDP();
    }

    method ResetTCP()
      modifies this`TCPRX, this`TCPTX, this`tcpRXBase, this`tcpTXBase, this`tcpRXReset, this`tcpTXReset
      ensures State().tcpRX == Cleared(old(State()).tcpRX) && State().tcpTX == Cleared(old(State()).tcpTX)
    {
      tcpRXReset := WrapAdd(tcpRXReset, WrapSub(TCPRX, tcpRXBase));
      tcpTXReset := WrapAdd(tcpTXReset, WrapSub(TCPTX, tcpTXBase));
      TCPRX, TCPTX := 0, 0;
      tcpRXBase, tcpTXBase := 0, 0;
    }

    method ResetUDP()
      modifies this`UDPRX, this`UDPTX, this`udpRXBase, this`udpTXBase, this`udpRXReset, this`udpTXReset
      ensures State().udpRX == Cleared(old(State()).udpRX) && State().udpTX == Cleared(old(State()).udpTX)
    {
      udpRXReset := WrapAdd(udpRXReset, WrapSub(UDPRX, udpRXBase));
      udpTXReset := WrapAdd(udpTXReset, WrapSub(UDPTX, udpTXBase));
      UDPRX, UDPTX := 0, 0;
      udpRXBase, udpTXBase := 0, 0;
    }

    method Rebase()
      modifies this
      ensures State() == AllRebased(old(State()))
    {
      tcpRXBase := TCPRX;
      tcpTXBase := TCPTX;
      udpRXBase := UDPRX;
      udpTXBase := UDPTX;
      tcpRXReset, tcpTXReset, udpRXReset, udpTXReset := 0, 0, 0, 0;
    }
  }
}
