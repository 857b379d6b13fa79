/**
 The life of a DMA transfer outside the geometry FIFO: programmed by one control word,
 waiting for its trigger, copied in one go and finished, for every start mode.
 */
module DmaTriggers {
  import opened Dma

  // ------------------------------------------------------ what is copied

  /** The distance between the sources, and between the destinations, of two words. */
  function SourceStep(sar: nat, wide: bool): int {
    var size := if wide then 4 else 2;
    match sar case 0 => size case 1 => -size case _ => 0
  }

  function DestinationStep(dar: nat, wide: bool): int {
    var size := if wide then 4 else 2;
    match dar case 1 => -size case 2 => 0 case _ => size
  }

  /** `more` is `before` and then `n` words from the two addresses on. */
  predicate Copies(before: seq<Pair>, more: seq<Pair>, n: nat, c: Channel) {
    && |more| == |before| + n && more[..|before|] == before
    && forall k :: 0 <= k < n ==>
         && more[|before| + k].src == (c.saddr + k * SourceStep(c.sar, c.wide)) % 0x1_0000_0000
         && more[|before| + k].dst == (c.daddr + k * DestinationStep(c.dar, c.wide)) % 0x1_0000_0000
  }

  /** The words of one start in mode `mode`: a scanline for the main memory display, what
      the card has, at most 112 words for the geometry FIFO, and else the word count, of
      which 0 means 0x200000 on ARM9. */
  function Count(c: Channel, mode: nat, e: Env): nat {
    if mode == 4 then 128
    else if mode == 5 then e.cardBytes / if c.wide then 4 else 2
    else
      var n := if c.arm9 && c.wordcount == 0 then 0x20_0000 else c.wordcount;
      if mode == 7 && n > 112 then 112 else n
  }

  /** The start mode that the control word of a channel asks for: three bits on ARM9, two
      on ARM7, with the card as its third mode and the slot or wifi as its fourth. */
  function ModeAsked(c: Channel): nat {
    if c.arm9 then c.modeField
    else if c.modeField < 2 then 0
    else if c.modeField < 4 then 1
    else if c.modeField < 6 then 5
    else if c.chan % 2 == 1 then 9 else 8
  }

  predicate Proper(c: Channel) { c.modeField < 8 && c.chan < 4 && c.sar < 4 && c.dar < 4 }

  /** An enabled channel between transfers. */
  predicate Waiting(s: State) { s.c.enable && !s.c.running && Proper(s.c) }

  /** The state after a copy. */
  predicate Copied(s: State, r: State, e: Env) {
    var n := Count(s.c, s.c.startmode, e);
    && Copies(s.copied, r.copied, n, s.c) && r.bursts == s.bursts + [n] && r.irqs == s.irqs
    && r.c.dmaCheck && r.c.nextEvent == e.now + e.elapsed && (r.freezes <==> s.freezes || s.c.arm9)
    && r.c.running == s.c.running && r.c.startmode == s.c.startmode && r.c.irq == s.c.irq
    && r.c.repeats == s.c.repeats && r.c.paused == s.c.paused && r.c.arm9 == s.c.arm9
    && r.c.enable == (s.c.enable && !(s.c.startmode == 4 && e.line == 191))
    && (r.c.repeats ==> r.c.wordcount == s.c.wordcount)
    && (!r.c.repeats && s.c.startmode == 5 ==> r.c.wordcount == 0)
    && (!r.c.repeats && s.c.startmode != 5 && n <= s.c.wordcount ==> r.c.wordcount == s.c.wordcount - n)
    && r.c.saddr == (s.c.saddr + n * SourceStep(s.c.sar, s.c.wide)) % 0x1_0000_0000
    && r.c.daddr == if s.c.dar == 3 then s.c.daddr
                    else (s.c.daddr + n * DestinationStep(s.c.dar, s.c.wide)) % 0x1_0000_0000
  }

  lemma CopyIs(s: State, e: Env)
    requires Proper(s.c) && s.c.startmode < 10
    ensures Copied(s, DoCopy(s, e), e)
  {
    StepsAre(s.c);
    hide SourceStep, DestinationStep, SrcStride, DstStride;
  }

  lemma StepsAre(c: Channel)
    requires Proper(c)
    ensures SrcStride(c) == SourceStep(c.sar, c.wide) && DstStride(c) == DestinationStep(c.dar, c.wide)
  {
  }

  lemma AsksIs(c: Channel)
    requires Proper(c)
    ensures StartMode(c) == ModeAsked(c) < 10
  {
  }

  /** What is copied depends on the addresses and the format only. */
  lemma SameCount(c: Channel, d: Channel, mode: nat, e: Env)
    requires c.arm9 == d.arm9 && c.wide == d.wide && c.sar == d.sar && c.dar == d.dar
    requires c.saddr == d.saddr && c.daddr == d.daddr && c.wordcount == d.wordcount
    ensures Count(c, mode, e) == Count(d, mode, e)
    ensures forall x, y, n :: Copies(x, y, n, c) <==> Copies(x, y, n, d)
  {
  }

  lemma SameAsked(c: Channel, d: Channel)
    requires c.arm9 == d.arm9 && c.modeField == d.modeField && c.chan == d.chan
    ensures ModeAsked(c) == ModeAsked(d)
  {
  }

  // -------------------------------------------------- with a trigger, or without

  /** A channel as its event finds it when it copies. */
  function Started(s: State): State {
    var c := s.c.(dmaCheck := false, startmode := ModeAsked(s.c), triggered := true, running := true, paused := false);
    s.(c := c, freezes := s.freezes && !s.c.arm9)
  }

  /** The event of a waiting channel: it copies if it was triggered or its mode needs no
      trigger, and else only latches the mode. */
  lemma EventOfWaiting(s: State, e: Env)
    requires Waiting(s)
    ensures var mode := ModeAsked(s.c);
            if s.c.triggered || mode == 0 || (mode == 7 && e.gxSize <= 127) then Exec(s, e) == DoCopy(Started(s), e)
            else Exec(s, e) == s.(c := s.c.(dmaCheck := false, startmode := mode), freezes := s.freezes && !s.c.arm9)
  {
    AsksIs(s.c);
    hide DoCopy, StartMode, ModeAsked;
  }

  /** After a trigger of its mode, the next event of a waiting channel copies its words. */
  lemma TriggerCopies(s: State, at: nat, e: Env)
    requires Waiting(s) && s.c.startmode == ModeAsked(s.c)
    ensures var t := Do(s, Trigger(ModeAsked(s.c), at));
            && t.c.dmaCheck && t.c.nextEvent == at && t.copied == s.copied
            && var r, n := Do(t, Event(e)), Count(s.c, ModeAsked(s.c), e);
               && Copies(s.copied, r.copied, n, s.c) && r.bursts == s.bursts + [n] && r.c.running && r.c.dmaCheck
               && r.c.nextEvent == e.now + e.elapsed && (s.c.arm9 ==> r.freezes)
               && r.c.startmode == ModeAsked(s.c) && r.c.repeats == s.c.repeats && r.c.irq == s.c.irq
               && r.c.arm9 == s.c.arm9 && r.irqs == s.irqs
  {
    hide Exec, DoCopy, StartMode, Copies, ModeAsked, Count, SourceStep, DestinationStep;
    var t := Do(s, Trigger(ModeAsked(s.c), at));
    AsksIs(s.c);
    SameAsked(s.c, t.c);
    EventOfWaiting(t, e);
    CopyIs(Started(t), e);
    SameCount(s.c, Started(t).c, ModeAsked(s.c), e);
  }

  /** A trigger of another mode, of a channel that is off, or of one in flight does
      nothing. */
  lemma OtherTriggersAreIgnored(s: State, mode: nat, at: nat)
    requires s.c.startmode != mode || !s.c.enable || (s.c.running && !s.c.paused)
    ensures Do(s, Trigger(mode, at)) == s
  {
  }

  /** Without a trigger the event of a waiting channel copies nothing, exactly unless the
      mode is the immediate one, or the geometry FIFO's with at most 127 entries in it. */
  lemma UntriggeredCopiesIff(s: State, e: Env)
    requires Waiting(s) && !s.c.triggered && s.c.dmaCheck
    ensures var r, starts := Do(s, Event(e)), ModeAsked(s.c) == 0 || (ModeAsked(s.c) == 7 && e.gxSize <= 127);
            && (if starts then Copies(s.copied, r.copied, Count(s.c, ModeAsked(s.c), e), s.c) && r.c.running
                else r.copied == s.copied && r.bursts == s.bursts && !r.c.running && !r.c.dmaCheck && r.c.enable)
            && r.c.startmode == ModeAsked(s.c)
  {
    hide Exec, DoCopy, StartMode, Copies, ModeAsked, Count, SourceStep, DestinationStep;
    AsksIs(s.c);
    EventOfWaiting(s, e);
    CopyIs(Started(s), e);
    SameCount(s.c, Started(s).c, ModeAsked(s.c), e);
  }

  /** A geometry FIFO transfer with words left. */
  predicate Unfinished(s: State) {
    s.c.running && s.c.enable && s.c.startmode == 7 == ModeAsked(s.c) && s.c.wordcount > 0 && Proper(s.c)
  }

  lemma EventOfUnfinished(s: State, e: Env)
    requires Unfinished(s)
    ensures Exec(s, e) ==
              if e.gxSize <= 127 then DoCopy(Started(s), e)
              else s.(c := s.c.(dmaCheck := false, triggered := false, paused := true),
                      freezes := s.freezes && !s.c.arm9)
  {
    hide DoCopy, StartMode, ModeAsked;
    var u := s.c.(dmaCheck := false, triggered := false, paused := true);
    AsksIs(u);
    SameAsked(s.c, u);
  }

  /** Its event goes on with the next words exactly if the FIFO has at most 127 entries;
      else the channel pauses, whatever triggered it before. */
  lemma PausesIff(s: State, e: Env)
    requires Unfinished(s) && s.c.dmaCheck
    ensures var r := Do(s, Event(e));
            && r.c.running && r.c.enable && r.irqs == s.irqs
            && (e.gxSize <= 127 ==>
                  Copies(s.copied, r.copied, Count(s.c, 7, e), s.c) && !r.c.paused && r.c.dmaCheck)
            && (e.gxSize > 127 ==>
                  && r.copied == s.copied && r.bursts == s.bursts && (s.c.arm9 ==> !r.freezes)
                  && r.c.paused && !r.c.dmaCheck && !r.c.triggered)
  {
    hide Exec, DoCopy, StartMode, Copies, ModeAsked, Count, SourceStep, DestinationStep;
    EventOfUnfinished(s, e);
    CopyIs(Started(s), e);
    SameCount(s.c, Started(s).c, 7, e);
  }

  /** The event at the end of a transfer: it interrupts if asked to, and switches the
      channel off unless it repeats. */
  lemma EndSwitchesOff(s: State, e: Env)
    requires s.c.running && s.c.dmaCheck && (s.c.startmode != 7 || s.c.wordcount == 0)
    ensures var r := Do(s, Event(e));
            && !r.c.running && r.c.enable == (s.c.enable && s.c.repeats) && r.copied == s.copied
            && r.irqs == s.irqs + (if s.c.irq then 1 else 0) && (s.c.arm9 ==> !r.freezes) && !r.c.dmaCheck
  {
  }

  // ----------------------------------------------------------- a whole life

  /** The fields of a control word, bit by bit. */
  lemma ControlWord(s: State, val: Addr, now: nat)
    ensures var c := Write32(s, val, now).c;
            && c.wordcount == val % 0x20_0000
            && c.dar == val / 0x20_0000 % 4 && c.sar == val / 0x80_0000 % 4
            && (c.repeats <==> val / 0x200_0000 % 2 == 1) && (c.wide <==> val / 0x400_0000 % 2 == 1)
            && c.modeField == (if c.arm9 then val / 0x800_0000 % 8 else val / 0x800_0000 % 8 / 2 * 2)
            && (c.irq <==> val / 0x4000_0000 % 2 == 1) && (c.enable <==> val / 0x8000_0000 % 2 == 1)
            && c.arm9 == s.c.arm9
  {
    hide Write32, Latched;
    LatchedIs(s.c, val);
    WrittenIsLatched(s, val, now);
  }

  /** Channels programmed alike. */
  predicate SameFormat(c: Channel, l: Channel) {
    && c.wordcount == l.wordcount && c.dar == l.dar && c.sar == l.sar && c.repeats == l.repeats
    && c.wide == l.wide && c.modeField == l.modeField && c.irq == l.irq && c.enable == l.enable && c.arm9 == l.arm9
  }

  lemma ReloadedFormat(c: Channel, wasEnabled: bool, now: nat)
    ensures var w := Reloaded(c, wasEnabled); SameFormat(w, c) && SameFormat(Scheduled(w, now), c)
  {
  }

  lemma WrittenIsLatched(s: State, val: Addr, now: nat)
    ensures SameFormat(Write32(s, val, now).c, Latched(s.c, val))
  {
    hide Latched, Reloaded, Scheduled, SameFormat;
    ReloadedFormat(Latched(s.c, val), s.c.enable, now);
  }

  lemma LatchedIs(s: Channel, val: Addr)
    ensures var c := Latched(s, val);
            && c.wordcount == val % 0x20_0000
            && c.dar == val / 0x20_0000 % 4 && c.sar == val / 0x80_0000 % 4
            && (c.repeats <==> val / 0x200_0000 % 2 == 1) && (c.wide <==> val / 0x400_0000 % 2 == 1)
            && c.modeField == (if c.arm9 then val / 0x800_0000 % 8 else val / 0x800_0000 % 8 / 2 * 2)
            && (c.irq <==> val / 0x4000_0000 % 2 == 1) && (c.enable <==> val / 0x8000_0000 % 2 == 1)
            && c.arm9 == s.arm9
  {
    Whole(val);
    EvenPart(val / 0x800_0000 % 8);
  }

  lemma Whole(val: Addr)
    ensures val / 1 == val
  {
  }

  lemma EvenPart(v: nat)
    ensures v - v % 2 == v / 2 * 2
  {
  }

  /** What a control word does besides: an enabled channel takes the addresses written
      before, and a trigger is forgotten just when the channel is switched on; its event
      comes now, unless the channel was on already in a mode that waits for triggers. */
  lemma ControlStarts(s: State, val: Addr, now: nat)
    ensures var r := Write32(s, val, now);
            && r == s.(c := r.c) && r.c.chan == s.c.chan && r.c.startmode == s.c.startmode
            && r.c.running == s.c.running && r.c.paused == s.c.paused
            && (r.c.enable ==> r.c.saddr == s.c.saddrUser && r.c.daddr == s.c.daddrUser)
            && (!r.c.enable ==> r.c.saddr == s.c.saddr && r.c.daddr == s.c.daddr)
            && (r.c.triggered <==> s.c.triggered && !(r.c.enable && !s.c.enable))
            && if s.c.enable && s.c.startmode != 0 && s.c.startmode != 7
                 then r.c.dmaCheck == s.c.dmaCheck && r.c.nextEvent == s.c.nextEvent
                 else r.c.dmaCheck && r.c.nextEvent == now
  {
    hide Field, Bit;
  }

  /** A channel programmed for a blank or another trigger, and not repeating: the first
      event only latches the mode, the trigger's event copies the words from the addresses
      written before, and the last one leaves the channel off, with one interrupt if the
      control word asks for it. */
  lemma TriggeredTransfer(s: State, val: Addr, at: nat, e0: Env, e1: Env, e2: Env)
    requires !s.c.enable && !s.c.running && s.c.chan < 4
    requires val / 0x8000_0000 == 1 && val / 0x200_0000 % 2 == 0
    requires var mode := ModeAsked(Write32(s, val, e0.now).c); mode != 0 && mode != 7
    ensures var w := Do(s, Control(val, e0.now));
            var mode := ModeAsked(w.c);
            var a := Do(w, Event(e0));
            var b := Do(Do(a, Trigger(mode, at)), Event(e1));
            var r := Do(b, Event(e2));
            && a.copied == s.copied && a.c.saddr == s.c.saddrUser && a.c.daddr == s.c.daddrUser
            && Copies(s.copied, b.copied, Count(w.c, mode, e1), w.c)
            && r.copied == b.copied && !r.c.enable && !r.c.running && !r.c.dmaCheck && (s.c.arm9 ==> !r.freezes)
            && r.irqs == s.irqs + if val / 0x4000_0000 % 2 == 1 then 1 else 0
  {
    hide Write32, Exec, ModeAsked, Copies, Count, TryTrigger;
    ControlWord(s, val, e0.now);
    WaitsAfterControl(s, val, e0.now);
    var w := Write32(s, val, e0.now);
    EventOfWaiting(w, e0);
    var a := Exec(w, e0);
    SameAsked(w.c, a.c);
    TriggerCopies(a, at, e1);
    SameCount(w.c, a.c, ModeAsked(w.c), e1);
    EndSwitchesOff(Do(Do(a, Trigger(ModeAsked(w.c), at)), Event(e1)), e2);
  }

  lemma WaitsAfterControl(s: State, val: Addr, now: nat)
    requires !s.c.enable && !s.c.running && s.c.chan < 4 && val / 0x8000_0000 == 1
    ensures var w := Write32(s, val, now);
            && Waiting(w) && !w.c.triggered && w.c.dmaCheck && w == s.(c := w.c)
            && w.c.saddr == s.c.saddrUser && w.c.daddr == s.c.daddrUser
  {
    hide Write32;
    ControlWord(s, val, now);
    ControlStarts(s, val, now);
    SmallFields(val);
  }

  lemma SmallFields(val: Addr)
    requires val / 0x8000_0000 == 1
    ensures val / 0x20_0000 % 4 < 4 && val / 0x80_0000 % 4 < 4 && val / 0x800_0000 % 8 < 8
    ensures val / 0x800_0000 % 8 / 2 * 2 < 8 && val / 0x8000_0000 % 2 == 1
  {
  }
}
