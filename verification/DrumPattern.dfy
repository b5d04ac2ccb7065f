/** From key samples to the drum pattern and its LEDs (keyboard.c, sequencer.c). */
module DrumPattern {
  // Words, bit by bit

  function Bit(n: nat, k: nat): bool {
    if k == 0 then n % 2 == 1 else Bit(n / 2, k - 1)
  }

  /** a & ~b. */
  function AndNot(a: nat, b: nat): nat {
    if a == 0 then 0 else (if a % 2 == 1 && b % 2 == 0 then 1 else 0) + 2 * AndNot(a / 2, b / 2)
  }

  /** a | b. */
  function Or(a: nat, b: nat): nat {
    if a == 0 && b == 0 then 0 else (if a % 2 == 1 || b % 2 == 1 then 1 else 0) + 2 * Or(a / 2, b / 2)
  }

  /** a ^ b. */
  function Xor(a: nat, b: nat): nat {
    if a == 0 && b == 0 then 0 else (if a % 2 != b % 2 then 1 else 0) + 2 * Xor(a / 2, b / 2)
  }

  /** n << k. */
  function Shl(n: nat, k: nat): nat {
    if k == 0 then n else 2 * Shl(n, k - 1)
  }

  /** n >> k. */
  function Shr(n: nat, k: nat): nat {
    if k == 0 then n else Shr(n / 2, k - 1)
  }

  lemma {:induction false} ZeroBit(k: nat)
    ensures !Bit(0, k)
  {
    if k > 0 {
      ZeroBit(k - 1);
    }
  }

  lemma {:induction false} AndNotBit(a: nat, b: nat, k: nat)
    ensures Bit(AndNot(a, b), k) <==> Bit(a, k) && !Bit(b, k)
  {
    if a == 0 {
      ZeroBit(k);
    } else if k > 0 {
      AndNotBit(a / 2, b / 2, k - 1);
    }
  }

  lemma {:induction false} OrBit(a: nat, b: nat, k: nat)
    ensures Bit(Or(a, b), k) <==> Bit(a, k) || Bit(b, k)
  {
    if a == 0 && b == 0 {
      ZeroBit(k);
    } else if k > 0 {
      OrBit(a / 2, b / 2, k - 1);
    }
  }

  lemma {:induction false} ShlBit(n: nat, j: nat, k: nat)
    ensures Bit(Shl(n, j), k) <==> k >= j && Bit(n, k - j)
  {
    if j > 0 && k > 0 {
      ShlBit(n, j - 1, k - 1);
    }
  }

  lemma {:induction false} ShrBit(n: nat, k: nat)
    ensures Shr(n, k) % 2 == 1 <==> Bit(n, k)
  {
    if k > 0 {
      ShrBit(n / 2, k - 1);
    }
  }

  lemma {:induction false} HighBitsZero(n: nat, width: nat, k: nat)
    requires n < Shl(1, width) && k >= width
    ensures !Bit(n, k)
  {
    if width == 0 {
      ZeroBit(k);
    } else {
      HighBitsZero(n / 2, width - 1, k - 1);
    }
  }

  // Samples

  /** The two bytes of the main row; the first byte holds buttons 8 to 15. */
  datatype Sample = Sample(high: nat, low: nat)

  predicate Pressed(s: Sample, k: nat) {
    if k < 8 then Bit(s.low, k) else Bit(s.high, k - 8)
  }

  /** The sample before the first has nothing pressed. */
  function Latest(samples: seq<Sample>): Sample {
    if samples == [] then Sample(0, 0) else samples[|samples| - 1]
  }

  /** How often button k went down. */
  function Presses(samples: seq<Sample>, k: nat): nat {
    if samples == [] then 0
    else
      var before := samples[..|samples| - 1];
      Presses(before, k) + if Pressed(Latest(samples), k) && !Pressed(Latest(before), k) then 1 else 0
  }

  lemma OneMoreSample(samples: seq<Sample>, s: Sample, k: nat)
    ensures Presses(samples + [s], k) ==
            Presses(samples, k) + if Pressed(s, k) && !Pressed(Latest(samples), k) then 1 else 0
  {
    assert (samples + [s])[..|samples|] == samples;
  }

  /** Step types; type 2 is a complex step, which toggling never makes. */
  const EMPTY: nat := 0
  const SIMPLE: nat := 1

  /** How many of the event rows report button k. */
  function Tally(rows: seq<nat>, k: nat): nat {
    if rows == [] then 0
    else Tally(rows[..|rows| - 1], k) + if Bit(rows[|rows| - 1], k) then 1 else 0
  }

  lemma TallyAppend(rows: seq<nat>, row: nat, k: nat)
    ensures Tally(rows + [row], k) == Tally(rows, k) + if Bit(row, k) then 1 else 0
  {
    assert (rows + [row])[..|rows|] == rows;
  }

  lemma {:induction false} TallyHead(rows: seq<nat>, k: nat)
    requires rows != []
    ensures Tally(rows, k) == Tally(rows[1..], k) + if Bit(rows[0], k) then 1 else 0
    decreases |rows|
  {
    var n := |rows| - 1;
    if n == 0 {
      assert rows[..0] == rows[1..] == [];
    } else {
      TallyHead(rows[..n], k);
      assert rows[..n][1..] == rows[1..][..n - 1];
    }
  }

  /** Step k accounts for every press whose event is neither waiting nor lost. */
  predicate Balanced(step: nat, waiting: seq<nat>, lost: seq<nat>, samples: seq<Sample>, k: nat) {
    step <= SIMPLE && (step + Tally(waiting, k) + Tally(lost, k)) % 2 == Presses(samples, k) % 2
  }

  // Edges and rows

  /** Edge bits of two bytes, or nothing for a byte that did not change. */
  function Edge(now: nat, was: nat): nat {
    if now != was then AndNot(now, was) else 0
  }

  lemma EdgeBit(now: nat, was: nat, k: nat)
    ensures Bit(Edge(now, was), k) <==> Bit(now, k) && !Bit(was, k)
  {
    AndNotBit(now, was, k);
    ZeroBit(k);
  }

  /** Two bytes as one 16-bit row, the first one on top. */
  function Merged(bytes: seq<nat>): nat
    requires |bytes| > 1
  {
    Or(Or(0, Shl(bytes[0], 8)), Shl(bytes[1], 0))
  }

  /** The 16-bit row of two edge bytes. */
  function Row(now: Sample, was: Sample): nat {
    Merged([Edge(now.high, was.high), Edge(now.low, was.low)])
  }

  /** The buttons held, but only for bytes that changed. */
  function Held(now: nat, was: nat): nat {
    if now != was then now else 0
  }

  function HeldRow(now: Sample, was: Sample): nat {
    Merged([Held(now.high, was.high), Held(now.low, was.low)])
  }

  /** So a button that is held is reported exactly if some button of its byte has changed. */
  lemma HeldBit(now: Sample, was: Sample, k: nat)
    requires k < 16 && now.low < 256
    ensures Bit(HeldRow(now, was), k) <==>
            Pressed(now, k) && if k < 8 then now.low != was.low else now.high != was.high
  {
    var h, l := Shl(Held(now.high, was.high), 8), Shl(Held(now.low, was.low), 0);
    OrBit(Or(0, h), l, k);
    OrBit(0, h, k);
    ZeroBit(k);
    ShlBit(Held(now.high, was.high), 8, k);
    if k >= 8 {
      ZeroBit(k - 8);
      assert Shl(1, 8) == 256;
      HighBitsZero(Held(now.low, was.low), 8, k);
    }
  }

  lemma RowBit(now: Sample, was: Sample, k: nat)
    requires k < 16 && now.low < 256
    ensures Bit(Row(now, was), k) <==> Pressed(now, k) && !Pressed(was, k)
  {
    var h, l := Shl(Edge(now.high, was.high), 8), Shl(Edge(now.low, was.low), 0);
    OrBit(Or(0, h), l, k);
    OrBit(0, h, k);
    ZeroBit(k);
    ShlBit(Edge(now.high, was.high), 8, k);
    EdgeBit(now.low, was.low, k);
    if k >= 8 {
      EdgeBit(now.high, was.high, k - 8);
      assert Shl(1, 8) == 256;
      HighBitsZero(now.low, 8, k);
    }
  }

  lemma NoChangeNoPress(samples: seq<Sample>, k: nat)
    ensures Presses(samples + [Latest(samples)], k) == Presses(samples, k)
  {
    OneMoreSample(samples, Latest(samples), k);
  }

  /** A sample whose event joins the queue, or is lost, leaves every step accounted for. */
  lemma ScanKeeps(step: nat, waiting: seq<nat>, lost: seq<nat>, samples: seq<Sample>, now: Sample, k: nat)
    requires k < 16 && now.low < 256 && Balanced(step, waiting, lost, samples, k)
    ensures Balanced(step, waiting + [Row(now, Latest(samples))], lost, samples + [now], k)
    ensures Balanced(step, waiting, lost + [Row(now, Latest(samples))], samples + [now], k)
  {
    var row := Row(now, Latest(samples));
    RowBit(now, Latest(samples), k);
    OneMoreSample(samples, now, k);
    TallyAppend(waiting, row, k);
    TallyAppend(lost, row, k);
  }

  /** The step a row makes of an empty or simple step. */
  function Toggled(step: nat, row: nat, k: nat): nat {
    Xor(step, Shr(row, k) % 2)
  }

  lemma ToggledIs(step: nat, row: nat, k: nat)
    requires step <= SIMPLE
    ensures Toggled(step, row, k) == if Bit(row, k) then SIMPLE - step else step
  {
    ShrBit(row, k);
    assert Xor(0, 0) == 0;
  }

  /** Delivering the oldest event leaves every step accounted for. */
  lemma DeliverKeeps(step: nat, waiting: seq<nat>, lost: seq<nat>, samples: seq<Sample>, k: nat)
    requires waiting != [] && Balanced(step, waiting, lost, samples, k)
    ensures Balanced(Toggled(step, waiting[0], k), waiting[1..], lost, samples, k)
  {
    TallyHead(waiting, k);
    ToggledIs(step, waiting[0], k);
  }

  // LED bytes

  /** The LED byte of the first n of eight steps. */
  function Packed(steps: seq<nat>, n: nat): nat
    requires n <= |steps|
  {
    if n == 0 then 0 else Or(Packed(steps, n - 1), Shl(steps[n - 1], n - 1))
  }

  /** Bit k of the byte is lit exactly when step k is simple, and no bit is shifted out. */
  lemma {:induction false} PackedBit(steps: seq<nat>, n: nat, k: nat)
    requires n <= |steps| && forall j :: 0 <= j < n ==> steps[j] <= SIMPLE
    ensures Bit(Packed(steps, n), k) <==> k < n && steps[k] == SIMPLE
  {
    if n == 0 {
      ZeroBit(k);
    } else {
      var top := steps[n - 1];
      PackedBit(steps, n - 1, k);
      OrBit(Packed(steps, n - 1), Shl(top, n - 1), k);
      ShlBit(top, n - 1, k);
      if k >= n {
        ZeroBit(k - n);
      }
    }
  }

  lemma {:induction false} TopBit(n: nat) returns (k: nat)
    requires n > 0
    ensures Bit(n, k)
  {
    if n % 2 == 1 {
      k := 0;
    } else {
      k := TopBit(n / 2);
      k := k + 1;
    }
  }

  /** A number too wide for width bits has a bit outside them. */
  lemma {:induction false} HighBit(n: nat, width: nat) returns (k: nat)
    requires n >= Shl(1, width)
    ensures k >= width && Bit(n, k)
  {
    if width == 0 {
      k := TopBit(n);
    } else {
      k := HighBit(n / 2, width - 1);
      k := k + 1;
    }
  }

  lemma PackedFits(steps: seq<nat>)
    requires |steps| == 8 && forall j :: 0 <= j < 8 ==> steps[j] <= SIMPLE
    ensures Packed(steps, 8) < 256
  {
    assert Shl(1, 8) == 256;
    if Packed(steps, 8) >= 256 {
      var k := HighBit(Packed(steps, 8), 8);
      PackedBit(steps, 8, k);
    }
  }

  /** The input task scans the keyboard; the sequencer task takes one event at a time. A scan
      whose event finds the queue full has no room. */
  datatype Turn = Scan(data: seq<nat>, room: bool) | Deliver

  /** Three bytes from the shift registers. */
  predicate Sampled(data: seq<nat>) {
    |data| == 3 && data[0] < 256 && data[1] < 256
  }

  /** The samples of a run. */
  function Samples(turns: seq<Turn>): seq<Sample>
    requires forall t :: t in turns && t.Scan? ==> Sampled(t.data)
  {
    if turns == [] then []
    else
      var t := turns[|turns| - 1];
      assert t in turns && (t.Scan? ==> Sampled(t.data));
      Samples(turns[..|turns| - 1]) + if t.Scan? then [Sample(t.data[0], t.data[1])] else []
  }

  /** Buttons of the main row, and function keys. */
  datatype ButtonData = ButtonData(mainRow: nat, functionKeys: nat)

  class Drum {
    const prev: array<nat>
    const steps: array<nat>
    const leds: array<nat>
    /** The event structure: buttons held, gone down and come up. */
    var isHeld: ButtonData
    var justPressed: ButtonData
    var justReleased: ButtonData
    /** The event queue. */
    var waiting: seq<nat>
    ghost var lost: seq<nat>
    ghost var samples: seq<Sample>

    ghost predicate Wired()
      reads this
    {
      prev.Length == 3 && steps.Length == 16 && leds.Length == 3 && prev != steps && prev != leds && steps != leds
    }

    ghost predicate Lit()
      requires Wired()
      reads this, steps, leds
    {
      leds[0] == 0 && leds[1] == Packed(steps[..8], 8) && leds[2] == Packed(steps[8..], 8)
    }

    /** The last sample is remembered, every press is in its step, waiting or lost, and the LED
        bytes are the packed steps. */
    ghost predicate Valid()
      reads this, prev, steps, leds
    {
      && Wired() && Sample(prev[0], prev[1]) == Latest(samples) && prev[0] < 256 && prev[1] < 256
      && (forall k :: 0 <= k < 16 ==> Balanced(steps[k], waiting, lost, samples, k))
      && Lit()
    }

    constructor ()
      ensures Valid() && fresh(prev) && fresh(steps) && fresh(leds)
      ensures samples == [] && waiting == [] && lost == []
    {
      prev := new nat[3](_ => 0);
      steps := new nat[16](_ => EMPTY);
      leds := new nat[3](_ => 0);
      isHeld, justPressed, justReleased := ButtonData(0, 0), ButtonData(0, 0), ButtonData(0, 0);
      waiting, lost, samples := [], [], [];
      new;
      forall part: seq<nat> | |part| == 8 && forall j :: 0 <= j < 8 ==> part[j] == 0 ensures Packed(part, 8) == 0 {
        NothingPacked(part, 8);
      }
    }

    /** kbParseButtons: edges against the previous sample, as one 16-bit row each; the function keys
        are never looked at. */
    method ParseButtons(data: seq<nat>) returns (update: bool)
      requires Wired() && Sampled(data) && prev[0] < 256 && prev[1] < 256
      modifies prev, this`isHeld, this`justPressed, this`justReleased
      ensures prev[0] == data[0] && prev[1] == data[1] && prev[2] == old(prev[2])
      ensures var now, was := Sample(data[0], data[1]), Sample(old(prev[0]), old(prev[1]));
              && (update <==> now != was)
              && (update ==> isHeld == ButtonData(HeldRow(now, was), 0) && justPressed == ButtonData(Row(now, was), 0)
                             && justReleased == ButtonData(Row(was, now), 0))
      ensures !update ==> isHeld == old(isHeld) && justPressed == old(justPressed) && justReleased == old(justReleased)
    {
      update := false;
      var held, pressed, released := [0, 0, 0], [0, 0, 0], [0, 0, 0];
      var i := 0;
      while i < 2
        invariant 0 <= i <= 2 && |held| == |pressed| == |released| == 3 && prev[2] == old(prev[2])
        invariant forall j :: 0 <= j < 2 ==> prev[j] == if j < i then data[j] else old(prev[j])
        invariant forall j :: 0 <= j < 2 ==> held[j] == if j < i then Held(data[j], old(prev[j])) else 0
        invariant forall j :: 0 <= j < 2 ==> pressed[j] == if j < i then Edge(data[j], old(prev[j])) else 0
        invariant forall j :: 0 <= j < 2 ==> released[j] == if j < i then Edge(old(prev[j]), data[j]) else 0
        invariant held[2] == 0 && pressed[2] == 0 && released[2] == 0
        invariant update <==> exists j :: 0 <= j < i && data[j] != old(prev[j])
        invariant isHeld == old(isHeld) && justPressed == old(justPressed) && justReleased == old(justReleased)
      {
        if data[i] != prev[i] {
          held := held[i := data[i]];
          pressed := pressed[i := AndNot(data[i], prev[i])];
          released := released[i := AndNot(prev[i], data[i])];
          prev[i] := data[i];
          update := true;
        }
        i := i + 1;
      }
      if !update {
        return;
      }
      isHeld := ButtonData(Merged(held), held[2]);
      justPressed := ButtonData(Merged(pressed), pressed[2]);
      justReleased := ButtonData(Merged(released), released[2]);
    }

    /** seqStepToggle: every button that went down flips its step. */
    method StepToggle(row: nat)
      requires Wired()
      modifies steps
      ensures forall k :: 0 <= k < 16 ==> steps[k] == Toggled(old(steps[k]), row, k)
    {
      var i := 0;
      while i < 16
        invariant 0 <= i <= 16
        invariant forall k :: 0 <= k < 16 ==>
                  steps[k] == if k < i then Toggled(old(steps[k]), row, k) else old(steps[k])
      {
        steps[i] := Xor(steps[i], Shr(row, i) % 2);
        i := i + 1;
      }
    }

    /** kbLEDDataSend: pack the step types into the two LED bytes of the main row. */
    method LedDataSend()
      requires Wired()
      modifies leds
      ensures Lit()
    {
      leds[0], leds[1], leds[2] := 0, 0, 0;
      var i := 0;
      while i < 2
        invariant 0 <= i <= 2 && leds[0] == 0
        invariant leds[1] == if i > 0 then Packed(steps[..8], 8) else 0
        invariant leds[2] == if i > 1 then Packed(steps[8..], 8) else 0
      {
        ghost var part := if i == 0 then steps[..8] else steps[8..];
        ghost var other := leds[2 - i];
        var j := 0;
        while j < 8
          invariant 0 <= j <= 8 && leds[0] == 0 && leds[2 - i] == other
          invariant leds[i + 1] == Packed(part, j)
        {
          leds[i + 1] := Or(leds[i + 1], Shl(steps[j + i * 8], j));
          j := j + 1;
        }
        i := i + 1;
      }
    }

    /** One pass of the input task: a change is sent if the queue has room, and lost otherwise. */
    method ScanKeys(data: seq<nat>, room: bool)
      requires Valid() && Sampled(data)
      modifies this`isHeld, this`justPressed, this`justReleased, this`waiting, this`lost, this`samples, prev
      ensures Valid() && samples == old(samples) + [Sample(data[0], data[1])]
      ensures var now, was := Sample(data[0], data[1]), Latest(old(samples));
              var rows := if now == was then [] else [Row(now, was)];
              && waiting == old(waiting) + (if room then rows else [])
              && lost == old(lost) + (if room then [] else rows)
    {
      ghost var now, was := Sample(data[0], data[1]), Latest(samples);
      var update := ParseButtons(data);
      forall k | 0 <= k < 16
        ensures !update ==> Balanced(steps[k], waiting, lost, samples + [now], k)
        ensures Balanced(steps[k], waiting + [Row(now, was)], lost, samples + [now], k)
        ensures Balanced(steps[k], waiting, lost + [Row(now, was)], samples + [now], k)
      {
        ScanKeeps(steps[k], waiting, lost, samples, now, k);
        NoChangeNoPress(samples, k);
      }
      samples := samples + [now];
      if update {
        if room {
          waiting := waiting + [justPressed.mainRow];
        } else {
          lost := lost + [justPressed.mainRow];
        }
      }
    }

    /** One pass of the sequencer task: the oldest event is taken, applied and shown. */
    method DeliverEvent()
      requires Valid() && waiting != []
      modifies this`waiting, steps, leds
      ensures Valid() && waiting == old(waiting)[1..]
      ensures forall k :: 0 <= k < 16 ==> steps[k] == Toggled(old(steps[k]), old(waiting)[0], k)
    {
      var row := waiting[0];
      forall k | 0 <= k < 16 ensures Balanced(Toggled(steps[k], row, k), waiting[1..], lost, samples, k) {
        DeliverKeeps(steps[k], waiting, lost, samples, k);
      }
      waiting := waiting[1..];
      StepToggle(row);
      LedDataSend();
    }

    /** Once the queue is empty, a step is simple after an odd number of presses and empty after
        an even number exactly when an even number of its events was lost; and at every moment
        each LED shows whether its step is simple. */
    lemma PatternShown(k: nat)
      requires Valid() && k < 16
      ensures steps[k] == EMPTY || steps[k] == SIMPLE
      ensures waiting == [] ==>
              ((steps[k] == if Presses(samples, k) % 2 == 1 then SIMPLE else EMPTY) <==> Tally(lost, k) % 2 == 0)
      ensures Bit(leds[1 + k / 8], k % 8) <==> steps[k] == SIMPLE
      ensures leds[1 + k / 8] < 256
    {
      assert forall j :: 0 <= j < 16 ==> steps[j] <= SIMPLE by {
        assert forall j :: 0 <= j < 16 ==> Balanced(steps[j], waiting, lost, samples, j);
      }
      assert Balanced(steps[k], waiting, lost, samples, k);
      var part := if k < 8 then steps[..8] else steps[8..];
      PackedBit(part, 8, k % 8);
      PackedFits(part);
    }
  }

  lemma {:induction false} NothingPacked(part: seq<nat>, n: nat)
    requires n <= |part| && forall j :: 0 <= j < n ==> part[j] == 0
    ensures Packed(part, n) == 0
  {
    if n > 0 {
      NothingPacked(part, n - 1);
      ShiftedZero(n - 1);
    }
  }

  lemma {:induction false} ShiftedZero(k: nat)
    ensures Shl(0, k) == 0
  {
    if k > 0 {
      ShiftedZero(k - 1);
    }
  }

  /** Any interleaving of the two tasks: if every event was delivered, each step has the parity
      of its button's presses and each LED shows its step. */
  method Play(turns: seq<Turn>) returns (d: Drum)
    requires forall t :: t in turns && t.Scan? ==> Sampled(t.data)
    ensures d.Valid() && d.samples == Samples(turns)
    ensures (forall t :: t in turns && t.Scan? ==> t.room) && d.waiting == [] ==>
              forall k :: 0 <= k < 16 ==>
                && d.steps[k] == (if Presses(Samples(turns), k) % 2 == 1 then SIMPLE else EMPTY)
                && (Bit(d.leds[1 + k / 8], k % 8) <==> d.steps[k] == SIMPLE)
  {
    d := new Drum();
    var i := 0;
    while i < |turns|
      invariant 0 <= i <= |turns| && fresh(d) && fresh(d.prev) && fresh(d.steps) && fresh(d.leds)
      invariant d.Valid() && d.samples == Samples(turns[..i])
      invariant (forall t :: t in turns && t.Scan? ==> t.room) ==> d.lost == []
    {
      assert turns[..i + 1][..i] == turns[..i];
      var t := turns[i];
      match t {
        case Scan(data, room) =>
          d.ScanKeys(data, room);
        case Deliver =>
          if d.waiting != [] {
            d.DeliverEvent();
          }
      }
      i := i + 1;
    }
    assert turns[..i] == turns;
    forall k | 0 <= k < 16
      ensures d.waiting == [] && d.lost == [] ==>
                && d.steps[k] == (if Presses(Samples(turns), k) % 2 == 1 then SIMPLE else EMPTY)
                && (Bit(d.leds[1 + k / 8], k % 8) <==> d.steps[k] == SIMPLE)
    {
      d.PatternShown(k);
    }
  }
}
