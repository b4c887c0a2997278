/**
 * Simulated transactions: the random hash the agent makes up when it does not
 * sign, and the mined/confirmation lines it writes for one.
 */
module VirtualTx {
  import opened Text
  import opened AgentLog
  import opened AgentRuntime

  /** The two lower-case hexadecimal digits of each byte, in order. */
  function HexOfBytes(bs: seq<Byte>): (h: string)
    ensures |h| == 2 * |bs|
    ensures forall i :: 0 <= i < |h| ==> IsHexDigit(h[i])
  {
    if bs == [] then ""
    else [HexDigit(bs[0] as nat / 16), HexDigit(bs[0] as nat % 16)] + HexOfBytes(bs[1..])
  }

  /** Reads a string of hexadecimal digit pairs back into bytes. */
  function BytesOfHex(h: string): (bs: seq<Byte>)
    requires |h| % 2 == 0
    requires forall i :: 0 <= i < |h| ==> IsHexDigit(h[i])
    ensures |bs| == |h| / 2
  {
    if h == [] then []
    else [(16 * HexValue(h[0]) + HexValue(h[1])) as Byte] + BytesOfHex(h[2..])
  }

  lemma {:induction false} HexOfBytesRoundTrip(bs: seq<Byte>)
    ensures BytesOfHex(HexOfBytes(bs)) == bs
  {
    if bs != [] {
      var d := bs[0] as nat;
      HexDigitValue(d / 16);
      HexDigitValue(d % 16);
      var h := HexOfBytes(bs);
      assert h[2..] == HexOfBytes(bs[1..]);
      HexOfBytesRoundTrip(bs[1..]);
    }
  }

  /** `fakeTx`: `0x` followed by the hexadecimal of 32 random bytes. */
  function FakeTx(b: Bytes32): (h: string)
    ensures |h| == 66 && h[..2] == "0x"
    ensures forall i :: 2 <= i < |h| ==> IsHexDigit(h[i])
  {
    "0x" + HexOfBytes(b)
  }

  /** A simulated hash determines the random bytes it was made from: distinct draws give distinct hashes. */
  lemma FakeTxRecoversBytes(b: Bytes32)
    ensures BytesOfHex(FakeTx(b)[2..]) == b
  {
    assert FakeTx(b)[2..] == HexOfBytes(b);
    HexOfBytesRoundTrip(b);
  }

  lemma FakeTxInjective(a: Bytes32, b: Bytes32)
    requires FakeTx(a) == FakeTx(b)
    ensures a == b
  {
    FakeTxRecoversBytes(a);
    FakeTxRecoversBytes(b);
  }

  /** `Math.floor(rnd(45000, 130000))`. */
  function GasUsed(u: Unit): (g: nat)
    ensures 45000 <= g < 130000
  {
    45000 + 85000 * u / RandomScale
  }

  /** `Math.floor(rnd(1, 4))`: how many confirmation lines follow the mined line. */
  function Confirmations(u: Unit): (n: nat)
    ensures 1 <= n <= 3
  {
    1 + 3 * u / RandomScale
  }

  /** The world after one more value drawn from `Math.random()`. */
  function Draw(w: World): World {
    w.(floatsUsed := w.floatsUsed + 1)
  }

  /**
   * The confirmation loop from confirmation `i` to `n`: each one writes its
   * line and then draws the pause before the next.
   */
  function ConfirmLoop(c: Ctx, w: World, txLabel: string, prefix: string, i: nat, n: nat): (r: World)
    requires 1 <= i <= n + 1
    decreases n + 1 - i
  {
    if i == n + 1 then w
    else ConfirmLoop(c, Draw(Emit(c, w, Info, VirtualTxConfirmation(txLabel, prefix, i))), txLabel, prefix, i + 1, n)
  }

  /** The loop only writes lines, one per confirmation, and draws one pause after each. */
  lemma {:induction false} ConfirmLoopExtends(c: Ctx, w: World, txLabel: string, prefix: string, i: nat, n: nat)
    requires 1 <= i <= n + 1
    ensures var r := ConfirmLoop(c, w, txLabel, prefix, i, n);
      && Extends(w, r) && r.calls == w.calls && r.bytesUsed == w.bytesUsed
      && |NewLogs(w, r)| == n + 1 - i && r.floatsUsed == w.floatsUsed + |NewLogs(w, r)|
      && Quiet(NewLogs(w, r))
    decreases n + 1 - i
  {
    if i <= n {
      var w1 := Draw(Emit(c, w, Info, VirtualTxConfirmation(txLabel, prefix, i)));
      var r := ConfirmLoop(c, w1, txLabel, prefix, i + 1, n);
      ConfirmLoopExtends(c, w1, txLabel, prefix, i + 1, n);
      ExtendsTrans(w, w1, r);
      QuietAppend(NewLogs(w, w1), NewLogs(w1, r));
    }
  }

  /** The loop's lines are the confirmations numbered `i` to `n`, in order. */
  lemma {:induction false} ConfirmLoopLines(c: Ctx, w: World, txLabel: string, prefix: string, i: nat, n: nat)
    requires 1 <= i <= n + 1
    ensures var r := ConfirmLoop(c, w, txLabel, prefix, i, n);
      Extends(w, r) && forall j :: 0 <= j < |NewLogs(w, r)| ==>
        NewLogs(w, r)[j] == LogEntry(c.now, Info, VirtualTxConfirmation(txLabel, prefix, i + j))
    decreases n + 1 - i
  {
    ConfirmLoopExtends(c, w, txLabel, prefix, i, n);
    if i <= n {
      var w1 := Draw(Emit(c, w, Info, VirtualTxConfirmation(txLabel, prefix, i)));
      var r := ConfirmLoop(c, w1, txLabel, prefix, i + 1, n);
      ConfirmLoopExtends(c, w1, txLabel, prefix, i + 1, n);
      ConfirmLoopLines(c, w1, txLabel, prefix, i + 1, n);
      ExtendsTrans(w, w1, r);
      forall j | 0 <= j < |NewLogs(w, r)|
        ensures NewLogs(w, r)[j] == LogEntry(c.now, Info, VirtualTxConfirmation(txLabel, prefix, i + j))
      {
        if j > 0 {
          assert NewLogs(w, r)[j] == NewLogs(w1, r)[j - 1];
        }
      }
    }
  }

  /**
   * `confirmVirtualTx`: a mined line with the gas drawn first, then one to
   * three numbered confirmation lines. Three random values are drawn besides
   * the one per confirmation pause: gas, the first pause, the count.
   */
  function ConfirmVirtualTxSpec(c: Ctx, w: World, txHash: string, txLabel: string): (r: World)
    ensures Extends(w, r) && r.calls == w.calls && r.bytesUsed == w.bytesUsed
    ensures 2 <= |NewLogs(w, r)| <= 4 && r.floatsUsed == w.floatsUsed + 2 + |NewLogs(w, r)|
    ensures Quiet(NewLogs(w, r))
  {
    var prefix := Prefix(txHash, 10);
    var w1 := Emit(c, Draw(w), Info, VirtualTxMined(txLabel, prefix, GasUsed(c.floats(w.floatsUsed))));
    var w2 := Draw(Draw(w1));
    var r := ConfirmLoop(c, w2, txLabel, prefix, 1, Confirmations(c.floats(w.floatsUsed + 2)));
    ConfirmLoopExtends(c, w2, txLabel, prefix, 1, Confirmations(c.floats(w.floatsUsed + 2)));
    ExtendsTrans(w, w2, r);
    QuietAppend(NewLogs(w, w2), NewLogs(w2, r));
    r
  }

  /**
   * The lines are the mined line, with the gas from the first value drawn,
   * then confirmations numbered from 1, as many as the third value says.
   */
  lemma ConfirmVirtualTxLines(c: Ctx, w: World, txHash: string, txLabel: string)
    ensures var r := ConfirmVirtualTxSpec(c, w, txHash, txLabel);
      var logs := NewLogs(w, r);
      && |logs| == Confirmations(c.floats(w.floatsUsed + 2)) + 1
      && logs[0] == LogEntry(c.now, Info, VirtualTxMined(txLabel, Prefix(txHash, 10), GasUsed(c.floats(w.floatsUsed))))
      && forall i :: 1 <= i < |logs| ==> logs[i] == LogEntry(c.now, Info, VirtualTxConfirmation(txLabel, Prefix(txHash, 10), i))
  {
    var r := ConfirmVirtualTxSpec(c, w, txHash, txLabel);
    var prefix := Prefix(txHash, 10);
    var w1 := Emit(c, Draw(w), Info, VirtualTxMined(txLabel, prefix, GasUsed(c.floats(w.floatsUsed))));
    var w2 := Draw(Draw(w1));
    ConfirmLoopExtends(c, w2, txLabel, prefix, 1, Confirmations(c.floats(w.floatsUsed + 2)));
    ConfirmLoopLines(c, w2, txLabel, prefix, 1, Confirmations(c.floats(w.floatsUsed + 2)));
    ExtendsTrans(w, w2, r);
    forall i | 1 <= i < |NewLogs(w, r)|
      ensures NewLogs(w, r)[i] == LogEntry(c.now, Info, VirtualTxConfirmation(txLabel, prefix, i))
    {
      assert NewLogs(w, r)[i] == NewLogs(w2, r)[i - 1];
    }
  }

  /** `fakeTx()` drawn from the byte stream. */
  method NewFakeTx(s: Services) returns (h: string)
    requires s.Valid()
    modifies s.entropy
    ensures s.Valid()
    ensures h == FakeTx(s.Context(0).bytes(old(s.State()).bytesUsed))
    ensures s.State() == old(s.State()).(bytesUsed := old(s.State()).bytesUsed + 1)
  {
    var b := s.entropy.RandomBytes();
    h := FakeTx(b);
  }

  /** The `for` loop of `confirmVirtualTx`: confirmation lines `1..n`, each followed by a pause. */
  method LogConfirmations(s: Services, now: nat, txLabel: string, prefix: string, n: nat)
    requires s.Valid()
    modifies s.log, s.entropy
    ensures s.Valid()
    ensures s.State() == ConfirmLoop(s.Context(now), old(s.State()), txLabel, prefix, 1, n)
  {
    ghost var c := s.Context(now);
    ghost var target := ConfirmLoop(c, s.State(), txLabel, prefix, 1, n);
    var i := 1;
    while i <= n
      invariant 1 <= i <= n + 1
      invariant s.Valid()
      invariant target == ConfirmLoop(c, s.State(), txLabel, prefix, i, n)
      decreases n + 1 - i
    {
      ghost var before := s.State();
      s.AddLog(now, Info, VirtualTxConfirmation(txLabel, prefix, i));
      var _ := s.entropy.Random();
      assert s.State() == Draw(Emit(c, before, Info, VirtualTxConfirmation(txLabel, prefix, i)));
      i := i + 1;
    }
  }

  method ConfirmVirtualTx(s: Services, now: nat, txHash: string, txLabel: string)
    requires s.Valid()
    modifies s.log, s.entropy
    ensures s.Valid()
    ensures s.State() == ConfirmVirtualTxSpec(s.Context(now), old(s.State()), txHash, txLabel)
  {
    ghost var c := s.Context(now);
    ghost var w0 := s.State();
    var prefix := Prefix(txHash, 10);
    var u := s.entropy.Random();
    assert u == c.floats(w0.floatsUsed) && s.State() == Draw(w0);
    s.AddLog(now, Info, VirtualTxMined(txLabel, prefix, GasUsed(u)));
    ghost var w1 := s.State();
    assert w1 == Emit(c, Draw(w0), Info, VirtualTxMined(txLabel, prefix, GasUsed(c.floats(w0.floatsUsed))));
    var pause := s.entropy.Random();
    var v := s.entropy.Random();
    assert v == c.floats(w0.floatsUsed + 2) && s.State() == Draw(Draw(w1));
    assert ConfirmVirtualTxSpec(c, w0, txHash, txLabel)
        == ConfirmLoop(c, s.State(), txLabel, prefix, 1, Confirmations(v));
    LogConfirmations(s, now, txLabel, prefix, Confirmations(v));
  }
}
