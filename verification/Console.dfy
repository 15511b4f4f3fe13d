/** The lockstep cells of one console and what a video frame and a transport
    micro-step do to them, as functions of the old cells.

    `Shim` is CBSHIM with everything it calls; `NStep` is CBNSTEP with every CBS*
    state. The class in Machine.dfy does the same in place. */
module Console {
  import opened Bytes
  import opened Entry
  import opened Wire

  const CBD := 2            // input delay, in ticks
  const CBWIN := 3          // ticks of input in a record
  const FNEBAD: u8 := 0x02
  const FNEPEER: u8 := 0x03

  /** CBNST: the states of the transport machine, in the order of the jump table. */
  datatype NState = Idle | Wiss | Wack | Siss | Sack | Riss | Rack | Cons | Fail

  datatype Cells = Cells(
    ent: Flags,
    tick: u8, rwat: u8,
    ring: seq<u8>, loc: seq<u8>,
    crcv: u8, err: u8,
    nst: NState, rdn: u8, seqno: u8,
    adv: bool, shadows: Shadows)

  predicate Shaped(c: Cells) {
    |c.ring| == 8 && |c.loc| == 4 && 0 <= c.ent.phase < 4
  }

  /** The handover of src/cbsess.inc, from whatever the session left behind. */
  function Start(guest: bool, junk: Cells): (c: Cells)
    ensures Shaped(c)
  {
    junk.(ent := Flags(0, false, false, true, guest, true, false), tick := 0xFF, rwat := 0xFE,
          ring := seq(8, _ => IW_IDLE), loc := seq(4, _ => IW_IDLE), err := 0, nst := Wiss)
  }

  // -------------------------------------------------------------- the video frame

  /** CBCAP and CBRSY: the wire byte, with a synthetic RESET while a repair is armed. */
  function Captured(c: Cells, hw: Hardware): u8 {
    if c.ent.rsy then Press(Capture(hw)) else Capture(hw)
  }

  /** CBNT1..CBNT1B: advance the tick, sample the checksum and capture, together or
      not at all. */
  function Advance(c: Cells, hw: Hardware, crc: u8): Cells
    requires Shaped(c)
  {
    if !c.ent.ran then c
    else
      var tick := Wrap(c.tick + 1);
      c.(tick := tick, crcv := crc, ent := c.ent.(ran := false, rsy := false),
         loc := c.loc[Wrap(tick + CBD) % 4 := Captured(c, hw)])
  }

  predicate GateOpen(c: Cells) {
    NotBefore(c.rwat, c.tick)
  }

  /** The two wire bytes of the current tick, host first. */
  function Wires(c: Cells): (u8, u8)
    requires Shaped(c)
  {
    var own, peers := c.loc[c.tick % 4], c.ring[c.tick % 8];
    if c.ent.guest then (peers, own) else (own, peers)
  }

  function NextPhase(f: Flags): Flags {
    f.(phase := (f.phase + 1) % 4)
  }

  /** CBNT2: the tick runs. */
  function RunTick(c: Cells, hw: Hardware, gameOn: bool): Cells
    requires Shaped(c)
  {
    var w := Wires(c);
    c.(err := c.err % 16, shadows := Mix(w.0, w.1, gameOn, hw.swchb),
       ent := NextPhase(c.ent.(ran := true)))
  }

  /** CBSTALL: freeze the logic and count, or give the peer up. */
  function Stall(c: Cells): Cells {
    if c.err >= 0xF0 then c.(adv := false, ent := c.ent.(left := true))
    else c.(adv := false, err := c.err + 0x10)
  }

  predicate Boundary(c: Cells) {
    c.ent.net && c.ent.phase == 0
  }

  /** CBSHIM: once a frame, before the game logic. */
  function Shim(c: Cells, hw: Hardware, crc: u8, gameOn: bool): (c': Cells)
    requires Shaped(c)
    ensures Shaped(c')
  {
    var c := c.(adv := true);
    if !c.ent.net then c.(shadows := Shadows(hw.swcha, hw.inpt4, hw.inpt5, hw.swchb))
    else if c.ent.phase != 0 then c.(ent := NextPhase(c.ent))
    else
      var d := Advance(c, hw, crc);
      if GateOpen(d) then RunTick(d, hw, gameOn) else Stall(d)
  }

  // -------------------------------------------------------------- the transport

  /** What the mailbox shows during one micro-step: ACKSEQ, the error code, STATUS's
      four reply bytes, the READ's length, and the reply window as 64 frames. */
  datatype Mail = Mail(acks: u8, err: u8, avlo: u8, avhi: u8, devst: u8, rxlo: u8, reply: seq<Frame>)

  predicate Readable(m: Mail) {
    |m.reply| == 64
  }

  /** The record CBSWISS writes: the window ending d ticks ahead, newest first. */
  function Outgoing(c: Cells): Frame
    requires Shaped(c)
  {
    var end := Wrap(c.tick + CBD);
    Record(end, c.loc[end % 4], c.loc[Wrap(end - 1) % 4], c.loc[Wrap(end - 2) % 4], c.crcv)
  }

  /** CBLNCH: the next sequence number, from the cartridge's own ACKSEQ: round from 1 to
      255, and never the one already answered. */
  function NextSeq(acks: u8): (s: u8)
    ensures s != 0 && s != acks && s == acks % 255 + 1
  {
    if acks == 255 then 1 else acks + 1
  }

  function Launch(c: Cells, next: NState, m: Mail): Cells {
    c.(nst := next, seqno := NextSeq(m.acks))
  }

  function Failed(c: Cells): Cells {
    c.(err := c.err - c.err % 16 + FNEBAD, nst := Wiss)
  }

  /** Whole frames only: the byte count STATUS reported, rounded down to a multiple of
      eight, and no more than 248. */
  function ReadSize(avlo: u8, avhi: u8): u8 {
    if avhi != 0 then 0xF8 else avlo - avlo % 8
  }

  /** CBCO2: a window of three bytes into the ring, each at its own tick's slot. */
  function StoreWindow(ring: seq<u8>, f: Frame): (r: seq<u8>)
    requires |ring| == 8
    ensures |r| == 8
  {
    ring[f.stamp % 8 := f.b1][Wrap(f.stamp - 1) % 8 := f.b2][Wrap(f.stamp - 2) % 8 := f.b3]
  }

  /** The desync test: comparable only when the record's checksum is of the tick this
      console is on. */
  predicate Arms(c: Cells, f: Frame) {
    Wrap(f.stamp - CBD) == c.tick && f.crc != c.crcv
  }

  /** One record out of the reply window. */
  function Consume(c: Cells, f: Frame): (c': Cells)
    requires Shaped(c)
    ensures Shaped(c')
  {
    if f.typ == WT_LEFT then c.(err := 0xF0 + FNEPEER)
    else if f.typ != WT_INPUT || !Sound(f) then c
    else
      c.(ring := StoreWindow(c.ring, f),
         ent := if Arms(c, f) then c.ent.(rsy := true) else c.ent,
         rwat := if NotBefore(f.stamp, c.rwat) then f.stamp else c.rwat)
  }

  /** The frame under the cursor: CBRDN shifted left three times, in eight bits. */
  function Cursor(c: Cells): int
    ensures 0 <= Cursor(c) < 32
  {
    (c.rdn - 1) % 32
  }

  predicate Acked(c: Cells, m: Mail) {
    m.acks == c.seqno
  }

  /** CBNSTEP: one bounded step of the transport. */
  function NStep(c: Cells, m: Mail): (c': Cells)
    requires Shaped(c) && Readable(m)
    ensures Shaped(c')
  {
    match c.nst
    case Idle => c
    case Wiss => Launch(c, Wack, m)
    case Wack =>
      if !Acked(c, m) then c else if m.err != 0 then Failed(c) else c.(nst := Siss)
    case Siss => Launch(c, Sack, m)
    case Sack =>
      if !Acked(c, m) then c
      else if m.err != 0 || m.devst != 1 then Failed(c)
      else if ReadSize(m.avlo, m.avhi) == 0 then c.(nst := Wiss)
      else c.(rdn := ReadSize(m.avlo, m.avhi), nst := Riss)
    case Riss => Launch(c, Rack, m)
    case Rack =>
      if !Acked(c, m) then c
      else if m.err != 0 then Failed(c)
      else c.(rdn := m.rxlo / 8, nst := Cons)
    case Cons =>
      if c.rdn == 0 then c.(nst := Wiss)
      else Consume(c.(rdn := c.rdn - 1), m.reply[Cursor(c)])
    case Fail => Failed(c)
  }
}
