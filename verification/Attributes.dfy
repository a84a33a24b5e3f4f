/** Port settings (`advtype.h`) and the two-slot buffer through which the driver publishes them (`advvcom.h`). */
module Attributes {
  import opened Words

  const FLOW_NONE := 0
  const FLOW_XONXOFF := 1
  const FLOW_RTSCTS := 2
  const FLOW_UNDEF := 4
  const PAIR_UNDEF := 5
  const STOP_UNDEF := 3
  const MS_DTR: u32 := 2
  const MS_RTS: u32 := 4

  /** `struct adv_port_info`. */
  datatype Info = Info(isOpen: bool, baud: int, flowctl: int, byte: int, pair: int, stop: int, ms: u32)

  const ZERO_INFO := Info(false, 0, 0, 0, 0, 0, 0)

  /** `ms & ADV_MS_RTS` and `ms & ADV_MS_DTR`, as truth values. */
  predicate Rts(ms: u32) { ms / 4 % 2 == 1 }
  predicate Dtr(ms: u32) { ms / 2 % 2 == 1 }

  /** The settings that travel together, in SET_LINE_CONTROL. */
  predicate SameLine(a: Info, b: Info) { a.pair == b.pair && a.stop == b.stop && a.byte == b.byte }

  /** What `adv_main_init` and the serial core's operations can make of the settings: no undefined value among them. */
  predicate InRange(a: Info) {
    && (a.byte == 0 || 5 <= a.byte <= 8) && FLOW_NONE <= a.flowctl <= FLOW_RTSCTS && 0 <= a.pair < PAIR_UNDEF
    && (a.stop == 0 || a.stop == 2) && (a.ms == 0 || a.ms == MS_DTR || a.ms == MS_RTS || a.ms == MS_DTR + MS_RTS)
  }

  /** The settings of the driver, and those it publishes; every step that changes them is checked to stay in range. */
  type PortInfo = a: Info | InRange(a) witness ZERO_INFO

  type Slots = s: seq<PortInfo> | |s| == 2 witness [ZERO_INFO, ZERO_INFO]

  /** `struct adv_port_att`: the driver's own settings, the two slots the daemon can map, and the slot last published. */
  datatype AttrBuf = AttrBuf(attr: PortInfo, slots: Slots, ptr: nat, newbie: bool) {
    predicate Ok() { ptr < 2 }

    /** `flush_attr_info`. */
    function Flush(): (r: AttrBuf)
      requires Ok()
      ensures r.Ok()
    {
      var p := if newbie then ptr else (ptr + 1) % 2;
      this.(newbie := false, ptr := p, slots := slots[p := attr])
    }
  }

  type OkAttrBuf = a: AttrBuf | a.Ok() witness AttrBuf(ZERO_INFO, [ZERO_INFO, ZERO_INFO], 0, true)

  /** The `termios` flags that `adv_uart_set_termios` looks at. */
  datatype Termios = Termios(baud: int, csize: int, crtscts: bool, ixoff: bool, parenb: bool, parodd: bool, cmspar: bool, cstopb: bool)

  function SizeOf(csize: int): (size: int)
    ensures 5 <= size <= 8
  {
    if 5 <= csize <= 7 then csize else 8
  }

  function FlowOf(t: Termios): (flowctl: int)
    ensures FLOW_NONE <= flowctl <= FLOW_RTSCTS
  {
    if t.crtscts then FLOW_RTSCTS else if t.ixoff then FLOW_XONXOFF else FLOW_NONE
  }

  function PairOf(t: Termios): (pair: int)
    ensures 0 <= pair < PAIR_UNDEF
  {
    if !t.parenb then 0
    else if t.cmspar then (if t.parodd then 3 else 4)
    else (if t.parodd then 1 else 2)
  }

  function StopOf(t: Termios): (stop: int)
    ensures stop == 0 || stop == 2
  {
    if t.cstopb then 2 else 0
  }

  /** `adv_uart_set_termios`: the settings that `termios` flags mean. */
  function TermiosInfo(attr: PortInfo, t: Termios): PortInfo {
    Info(attr.isOpen, t.baud, FlowOf(t), SizeOf(t.csize), PairOf(t), StopOf(t), attr.ms)
  }

  /** What happens to the buffer: the driver changes its settings, or the daemon asks for the current slot. */
  datatype AttrEvent = Change(info: PortInfo) | Publish

  function After(a: OkAttrBuf, events: seq<AttrEvent>): OkAttrBuf
    decreases |events|
  {
    if events == [] then a
    else After(match events[0] case Change(i) => a.(attr := i) case Publish => a.Flush(), events[1..])
  }

  /** The settings the driver had at the latest `Publish`, or `last` when there is none. */
  function Published(attr: PortInfo, last: PortInfo, events: seq<AttrEvent>): PortInfo
    decreases |events|
  {
    if events == [] then last
    else match events[0]
      case Change(i) => Published(i, last, events[1..])
      case Publish => Published(attr, attr, events[1..])
  }

  /** Whatever the driver does meanwhile, the slot the daemon was given holds the settings of the latest publication. */
  lemma {:induction false} SlotHoldsLatestPublication(a: OkAttrBuf, events: seq<AttrEvent>)
    ensures var b := After(a, events);
            b.slots[b.ptr] == Published(a.attr, a.slots[a.ptr], events)
    decreases |events|
  {
    if events != [] {
      match events[0]
      case Change(i) => SlotHoldsLatestPublication(a.(attr := i), events[1..]);
      case Publish => SlotHoldsLatestPublication(a.Flush(), events[1..]);
    }
  }

  /** After the first publication, publishing writes only the slot that the daemon is not reading. */
  lemma FlushSparesTheSlotInUse(a: OkAttrBuf)
    requires !a.newbie
    ensures a.Flush().ptr != a.ptr && a.Flush().slots[a.ptr] == a.slots[a.ptr]
    ensures a.Flush().slots[a.Flush().ptr] == a.attr
  {
    assert (a.ptr + 1) % 2 == 1 - a.ptr;
  }

  /** The driver side of the buffer, in place. */
  class AdvPortAtt {
    var attr: PortInfo
    const data: array<PortInfo>
    var usrPtr: nat
    var newbie: bool

    ghost predicate Valid()
      reads this
    {
      data.Length == 2 && usrPtr < 2
    }

    ghost function View(): (a: AttrBuf)
      reads this, data
      requires Valid()
      ensures a.Ok()
    {
      AttrBuf(attr, data[..], usrPtr, newbie)
    }

    /** The state `adv_main_init` gives the buffer. */
    constructor ()
      ensures Valid() && fresh(data) && View() == AttrBuf(ZERO_INFO, [ZERO_INFO, ZERO_INFO], 0, true)
    {
      attr := ZERO_INFO;
      data := new PortInfo[2](_ => ZERO_INFO);
      usrPtr := 0;
      newbie := true;
    }

    /** `flush_attr_info`. */
    method FlushAttrInfo() returns (ptr: nat)
      requires Valid()
      modifies this`newbie, this`usrPtr, data
      ensures Valid() && View() == old(View()).Flush() && ptr == usrPtr
    {
      if newbie {
        newbie := false;
      } else {
        usrPtr := (usrPtr + 1) % 2;
      }
      data[usrPtr] := attr;
      return usrPtr;
    }
  }
}
