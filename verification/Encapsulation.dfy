/**
 Nested encapsulations, as transformations of a writer (buffer and open encapsulations) and of a
 reader (buffer, cursor and open encapsulations). The innermost one is the last of the stack.
 */
module Encapsulation {
  import opened EvictorTypes
  import opened ByteStrings
  import opened Wire

  /** Four bytes of length and two of encoding version. */
  const HEADER := 6

  /** encodingMajor, encodingMinor. */
  const VERSION: seq<byte> := [1, 0]

  /****** Writing ******/

  datatype Writer = Writer(b: seq<byte>, open: seq<nat>)

  datatype WriteOp = Append(bytes: seq<byte>) | Open | Close

  function Opened(w: Writer): Writer {
    Writer(w.b + (WriteSigned(0, 4) + VERSION), w.open + [|w.b|])
  }

  function Patched(b: seq<byte>, at: nat, v: int): seq<byte>
    requires at + 4 <= |b|
  {
    b[..at] + WriteSigned(v, 4) + b[at + 4..]
  }

  function Innermost(w: Writer): nat
    requires w.open != []
  {
    w.open[|w.open| - 1]
  }

  function ClosedOne(w: Writer): Writer
    requires w.open != [] && Innermost(w) + 4 <= |w.b|
  {
    Writer(Patched(w.b, Innermost(w), |w.b| - Innermost(w)), w.open[..|w.open| - 1])
  }

  /** Encapsulations that have been closed, from the first byte of the length to the end of the body. */
  datatype Region = Region(start: nat, end: nat)

  datatype Written = Written(w: Writer, closed: seq<Region>)

  function Write1(s: Written, op: WriteOp): Option<Written> {
    match op
    case Append(bytes) => Some(s.(w := s.w.(b := s.w.b + bytes)))
    case Open => Some(s.(w := Opened(s.w)))
    case Close =>
      if s.w.open == [] || Innermost(s.w) + 4 > |s.w.b| then None
      else Some(Written(ClosedOne(s.w), s.closed + [Region(Innermost(s.w), |s.w.b|)]))
  }

  /** A whole run of the writer; None if it closes what it has not opened. */
  function WriteAll(ops: seq<WriteOp>): Option<Written> {
    if ops == [] then Some(Written(Writer([], []), []))
    else match WriteAll(ops[..|ops| - 1])
      case None => None
      case Some(s) => Write1(s, ops[|ops| - 1])
  }

  /** The length field of a closed region says where it ends. */
  ghost predicate Sized(b: seq<byte>, r: Region) {
    && r.start + HEADER <= r.end <= |b|
    && b[r.start..r.start + 4] == WriteSigned(r.end - r.start, 4)
    && b[r.start + 4..r.start + 6] == VERSION
  }

  /** `inner` was closed before `outer`: it lies inside its body or before it. */
  ghost predicate Nested(inner: Region, outer: Region) {
    inner.end <= outer.start || (outer.start + HEADER <= inner.start && inner.end <= outer.end)
  }

  ghost predicate OpenOK(w: Writer) {
    && (forall i, j :: 0 <= i < j < |w.open| ==> w.open[i] + HEADER <= w.open[j])
    && (forall i :: 0 <= i < |w.open| ==> w.open[i] + HEADER <= |w.b| && w.b[w.open[i] + 4..w.open[i] + 6] == VERSION)
  }

  ghost predicate WrittenOK(s: Written) {
    && OpenOK(s.w)
    && (forall r | r in s.closed :: Sized(s.w.b, r))
    && (forall r, i | r in s.closed && 0 <= i < |s.w.open| :: r.end <= s.w.open[i] || s.w.open[i] + HEADER <= r.start)
    && (forall i, j :: 0 <= i < j < |s.closed| ==> Nested(s.closed[i], s.closed[j]))
  }

  lemma AppendKeeps(s: Written, bytes: seq<byte>)
    requires WrittenOK(s)
    ensures WrittenOK(s.(w := s.w.(b := s.w.b + bytes)))
  {
    var b' := s.w.b + bytes;
    forall i | 0 <= i < |s.w.open| ensures b'[s.w.open[i] + 4..s.w.open[i] + 6] == VERSION {
      assert b'[s.w.open[i] + 4..s.w.open[i] + 6] == s.w.b[s.w.open[i] + 4..s.w.open[i] + 6];
    }
    forall r | r in s.closed ensures Sized(b', r) {
      assert b'[r.start..r.start + 4] == s.w.b[r.start..r.start + 4];
      assert b'[r.start + 4..r.start + 6] == s.w.b[r.start + 4..r.start + 6];
    }
  }

  lemma HeaderVersion(b: seq<byte>)
    ensures (b + (WriteSigned(0, 4) + VERSION))[|b| + 4..|b| + 6] == VERSION
  {
  }

  /** An encapsulation whose header is in place joins the open ones. */
  lemma PushOpen(s: Written, at: nat)
    requires WrittenOK(s) && at + HEADER <= |s.w.b| && s.w.b[at + 4..at + 6] == VERSION
    requires forall i :: 0 <= i < |s.w.open| ==> s.w.open[i] + HEADER <= at
    requires forall r | r in s.closed :: r.end <= at
    ensures WrittenOK(s.(w := Writer(s.w.b, s.w.open + [at])))
  {
  }

  lemma OpenKeeps(s: Written)
    requires WrittenOK(s)
    ensures WrittenOK(s.(w := Opened(s.w)))
  {
    var header := WriteSigned(0, 4) + VERSION;
    AppendKeeps(s, header);
    HeaderVersion(s.w.b);
    PushOpen(s.(w := s.w.(b := s.w.b + header)), |s.w.b|);
  }

  lemma PatchFrame(b: seq<byte>, at: nat, v: int, i: nat, j: nat)
    requires at + 4 <= |b| && i <= j <= |b| && (j <= at || at + 4 <= i)
    ensures |Patched(b, at, v)| == |b| && Patched(b, at, v)[i..j] == b[i..j]
    ensures Patched(b, at, v)[at..at + 4] == WriteSigned(v, 4)
  {
    var p := Patched(b, at, v);
    assert forall k :: 0 <= k < |b| && (k < at || at + 4 <= k) ==> p[k] == b[k];
  }

  /** Patching the innermost length leaves everything else that is closed or open as it was. */
  lemma PatchKeeps(s: Written, v: int)
    requires WrittenOK(s) && s.w.open != []
    ensures Innermost(s.w) + HEADER <= |s.w.b|
    ensures var b' := Patched(s.w.b, Innermost(s.w), v);
      && |b'| == |s.w.b|
      && (forall r | r in s.closed :: Sized(b', r))
      && (forall i :: 0 <= i < |s.w.open| ==> b'[s.w.open[i] + 4..s.w.open[i] + 6] == VERSION)
      && b'[Innermost(s.w)..Innermost(s.w) + 4] == WriteSigned(v, 4)
  {
    var at := Innermost(s.w);
    var b' := Patched(s.w.b, at, v);
    forall i | 0 <= i < |s.w.open| ensures b'[s.w.open[i] + 4..s.w.open[i] + 6] == VERSION {
      PatchFrame(s.w.b, at, v, s.w.open[i] + 4, s.w.open[i] + 6);
    }
    forall r | r in s.closed ensures Sized(b', r) {
      assert r.end <= s.w.open[|s.w.open| - 1] || s.w.open[|s.w.open| - 1] + HEADER <= r.start;
      PatchFrame(s.w.b, at, v, r.start, r.start + 4);
      PatchFrame(s.w.b, at, v, r.start + 4, r.start + 6);
    }
    PatchFrame(s.w.b, at, v, at, at);
  }

  lemma CloseKeeps(s: Written)
    requires WrittenOK(s) && s.w.open != []
    ensures Innermost(s.w) + HEADER <= |s.w.b|
    ensures WrittenOK(Written(ClosedOne(s.w), s.closed + [Region(Innermost(s.w), |s.w.b|)]))
  {
    var at, n := Innermost(s.w), |s.w.b|;
    PatchKeeps(s, n - at);
    PopRegion(s, ClosedOne(s.w));
  }

  /** The innermost encapsulation, once its length is in place, joins the closed ones. */
  lemma PopRegion(s: Written, w: Writer)
    requires WrittenOK(s) && s.w.open != []
    requires w.open == s.w.open[..|s.w.open| - 1] && |w.b| == |s.w.b|
    requires forall r | r in s.closed :: Sized(w.b, r)
    requires forall i :: 0 <= i < |s.w.open| ==> w.b[s.w.open[i] + 4..s.w.open[i] + 6] == VERSION
    requires w.b[Innermost(s.w)..Innermost(s.w) + 4] == WriteSigned(|w.b| - Innermost(s.w), 4)
    ensures WrittenOK(Written(w, s.closed + [Region(Innermost(s.w), |w.b|)]))
  {
    var outer := Region(Innermost(s.w), |w.b|);
    StillOpen(s, w);
    assert Sized(w.b, outer);
    var closed := s.closed + [outer];
    forall r | r in closed ensures Sized(w.b, r) {
      assert r in s.closed || r == outer;
    }
    forall r, i | r in closed && 0 <= i < |w.open| ensures r.end <= w.open[i] || w.open[i] + HEADER <= r.start {
      assert r in s.closed || r == outer;
    }
    forall i, j | 0 <= i < j < |closed| ensures Nested(closed[i], closed[j]) {
      assert closed[i] in s.closed;
      InnerFirst(s, closed[i], |w.b|);
    }
  }

  lemma StillOpen(s: Written, w: Writer)
    requires OpenOK(s.w) && s.w.open != []
    requires w.open == s.w.open[..|s.w.open| - 1] && |w.b| == |s.w.b|
    requires forall i :: 0 <= i < |s.w.open| ==> w.b[s.w.open[i] + 4..s.w.open[i] + 6] == VERSION
    ensures OpenOK(w)
    ensures w.b[Innermost(s.w) + 4..Innermost(s.w) + 6] == VERSION
    ensures forall i :: 0 <= i < |w.open| ==> w.open[i] == s.w.open[i] && w.open[i] + HEADER <= Innermost(s.w)
  {
    assert Innermost(s.w) == s.w.open[|s.w.open| - 1];
    assert forall i :: 0 <= i < |w.open| ==> w.open[i] == s.w.open[i];
  }

  lemma InnerFirst(s: Written, r: Region, end: nat)
    requires WrittenOK(s) && s.w.open != [] && r in s.closed && |s.w.b| <= end
    ensures Nested(r, Region(Innermost(s.w), end))
  {
    var i := |s.w.open| - 1;
    assert r.end <= s.w.open[i] || s.w.open[i] + HEADER <= r.start;
  }

  /** Any nesting of writes leaves every closed encapsulation sized, whatever was written after it, and properly nested. */
  lemma {:induction false} EveryRegionSized(ops: seq<WriteOp>)
    requires WriteAll(ops).Some?
    ensures WrittenOK(WriteAll(ops).value)
  {
    if ops != [] {
      EveryRegionSized(ops[..|ops| - 1]);
      var s := WriteAll(ops[..|ops| - 1]).value;
      match ops[|ops| - 1]
      case Append(bytes) => AppendKeeps(s, bytes);
      case Open => OpenKeeps(s);
      case Close => CloseKeeps(s);
    }
  }

  /** A run fails only by closing more than it has opened. */
  lemma {:induction false} FailsOnlyUnopened(ops: seq<WriteOp>)
    requires ops != [] && WriteAll(ops[..|ops| - 1]).Some?
    ensures WriteAll(ops).None? <==> ops[|ops| - 1].Close? && WriteAll(ops[..|ops| - 1]).value.w.open == []
  {
    EveryRegionSized(ops[..|ops| - 1]);
  }

  /** The patched length reads as the number of bytes of the encapsulation exactly when an Int can hold it. */
  lemma LengthReads(ops: seq<WriteOp>, r: Region)
    requires WriteAll(ops).Some? && r in WriteAll(ops).value.closed
    ensures var b := WriteAll(ops).value.w.b;
      r.start + HEADER <= r.end <= |b|
      && (ReadSigned(b[r.start..r.start + 4]) == r.end - r.start <==> r.end - r.start <= INT_MAX)
  {
    RegionSized(ops, r);
    IntHolds(r.end - r.start);
  }

  lemma RegionSized(ops: seq<WriteOp>, r: Region)
    requires WriteAll(ops).Some? && r in WriteAll(ops).value.closed
    ensures Sized(WriteAll(ops).value.w.b, r)
  {
    EveryRegionSized(ops);
  }

  lemma IntHolds(n: nat)
    ensures ReadSigned(WriteSigned(n, 4)) == n <==> n <= INT_MAX
  {
    Pow4();
    if n <= INT_MAX {
      SignedRoundTrip(n, 4);
    } else {
      ReadSignedFits(WriteSigned(n, 4));
    }
  }

  /** A write appends its own bytes, opening appends a header, and closing changes the four length bytes; nothing else changes. */
  lemma BytesKept(s: Written, op: WriteOp)
    requires Write1(s, op).Some?
    ensures var b, b' := s.w.b, Write1(s, op).value.w.b;
      match op
      case Append(bytes) => b' == b + bytes
      case Open => b' == b + [0, 0, 0, 0, 1, 0]
      case Close => |b'| == |b| && forall j :: 0 <= j < |b| && !(Innermost(s.w) <= j < Innermost(s.w) + 4) ==> b'[j] == b[j]
  {
    if op.Open? {
      assert ToBytes(0, 2) == [0] + ToBytes(0, 1) && ToBytes(0, 1) == [0];
      assert ToBytes(0, 4) == [0] + ([0] + ToBytes(0, 2));
    }
  }

  /****** Reading ******/

  datatype Frame = Frame(start: nat, sz: nat)

  datatype Reader = Reader(b: seq<byte>, i: nat, open: seq<Frame>)

  datatype ReadOp = Take(n: nat) | Enter | Leave

  /** startReadEncaps; None is one of its exceptions. */
  function Entered(r: Reader): Option<Reader>
    requires r.i <= |r.b|
  {
    if |r.b| - r.i < 4 then None
    else
      var sz := ReadSigned(r.b[r.i..r.i + 4]);
      if sz < 0 || r.i + sz > |r.b| then None
      else if |r.b| - r.i < HEADER || r.b[r.i + 4] != 1 || r.b[r.i + 5] > 0 then None
      else Some(Reader(r.b, r.i + HEADER, r.open + [Frame(r.i, sz)]))
  }

  /** A reader enters exactly if a header is left, its length is neither negative nor longer than what is left, and its version is 1.0. */
  lemma EntersIff(r: Reader)
    requires r.i <= |r.b|
    ensures Entered(r).Some? <==>
      && |r.b| - r.i >= 6
      && 0 <= ReadSigned(r.b[r.i..r.i + 4]) <= |r.b| - r.i
      && r.b[r.i + 4..r.i + 6] == [1, 0]
    ensures Entered(r).Some? ==> Entered(r).value.b == r.b && Entered(r).value.i == r.i + 6
  {
  }

  /** endReadEncaps. */
  function Exited(r: Reader): Reader
    requires r.open != []
  {
    var f := r.open[|r.open| - 1];
    Reader(r.b, f.start + f.sz, r.open[..|r.open| - 1])
  }

  function Read1(r: Reader, op: ReadOp): Option<Reader> {
    match op
    case Take(n) => if r.i + n <= |r.b| then Some(r.(i := r.i + n)) else None
    case Enter => if r.i <= |r.b| then Entered(r) else None
    case Leave => if r.open == [] then None else Some(Exited(r))
  }

  function ReadAll(r: Reader, ops: seq<ReadOp>): Option<Reader>
    decreases |ops|
  {
    if ops == [] then Some(r)
    else match Read1(r, ops[0])
      case None => None
      case Some(r') => ReadAll(r', ops[1..])
  }

  /** Started `d` encapsulations deep, the operations end all of these and all they start themselves. */
  predicate Balanced(ops: seq<ReadOp>, d: nat) {
    if ops == [] then d == 0
    else match ops[0]
      case Take(_) => Balanced(ops[1..], d)
      case Enter => Balanced(ops[1..], d + 1)
      case Leave => d > 0 && Balanced(ops[1..], d - 1)
  }

  /** Last in, first out. */
  lemma {:induction false} BalancedStack(r: Reader, ops: seq<ReadOp>, d: nat)
    requires Balanced(ops, d) && d <= |r.open| && ReadAll(r, ops).Some?
    ensures ReadAll(r, ops).value.open == r.open[..|r.open| - d] && ReadAll(r, ops).value.b == r.b
    decreases |ops|
  {
    if ops != [] {
      var r' := Read1(r, ops[0]).value;
      match ops[0]
      case Take(_) => BalancedStack(r', ops[1..], d);
      case Enter =>
        BalancedStack(r', ops[1..], d + 1);
        assert r'.open[..|r'.open| - (d + 1)] == r.open[..|r.open| - d];
      case Leave =>
        BalancedStack(r', ops[1..], d - 1);
        assert r'.open[..|r'.open| - (d - 1)] == r.open[..|r.open| - d];
    }
  }

  /** The reader can enter what the writer closed. */
  lemma EntersRegion(ops: seq<WriteOp>, r: Region, reader: Reader)
    requires WriteAll(ops).Some? && r in WriteAll(ops).value.closed && r.end - r.start <= INT_MAX
    requires reader.b == WriteAll(ops).value.w.b && reader.i == r.start
    ensures r.start <= r.end <= |reader.b|
    ensures Entered(reader) == Some(Reader(reader.b, r.start + HEADER, reader.open + [Frame(r.start, r.end - r.start)]))
  {
    RegionSized(ops, r);
    LengthReads(ops, r);
    var b := reader.b;
    assert b[r.start + 4..r.start + 6][0] == 1 && b[r.start + 4..r.start + 6][1] == 0;
  }

  /**
   Whatever the reader does with the body of an encapsulation, reading all of it or part of it, entering and
   leaving others, when it leaves the encapsulation it stands where the writer closed it.
   */
  lemma EndsWhereWriterEnded(ops: seq<WriteOp>, r: Region, reader: Reader, body: seq<ReadOp>)
    requires WriteAll(ops).Some? && r in WriteAll(ops).value.closed && r.end - r.start <= INT_MAX
    requires reader.b == WriteAll(ops).value.w.b && reader.i == r.start && Balanced(body, 0)
    ensures r.start <= |reader.b| && Entered(reader).Some?
    ensures var inside := ReadAll(Entered(reader).value, body);
      inside.Some? ==> inside.value.open != [] && Exited(inside.value) == Reader(reader.b, r.end, reader.open)
  {
    EntersRegion(ops, r, reader);
    var entered := Entered(reader).value;
    if ReadAll(entered, body).Some? {
      BalancedStack(entered, body, 0);
      assert entered.open[..|entered.open| - 0] == entered.open;
    }
  }

  /**
   A length that does not even cover the header is accepted. Leaving never moves the cursor back behind
   the header just read if and only if the length covers it, as all lengths that a writer wrote do.
   */
  lemma LeavesForwardIff(r: Reader)
    requires r.i <= |r.b| && Entered(r).Some?
    ensures |r.b| - r.i >= 4
    ensures Exited(Entered(r).value).i >= Entered(r).value.i <==> ReadSigned(r.b[r.i..r.i + 4]) >= HEADER
    ensures Exited(Entered(r).value).i <= |r.b| && Exited(Entered(r).value).open == r.open
  {
  }

  /** Such a length: the reader is back where it started. */
  lemma EmptyLengthEntered()
    ensures var r := Reader([0, 0, 0, 0, 1, 0], 0, []);
      Entered(r).Some? && Exited(Entered(r).value) == r
  {
    var r := Reader([0, 0, 0, 0, 1, 0], 0, []);
    var bs: seq<byte> := [0, 0, 0, 0];
    assert r.b[0..4] == bs;
    assert FromBytes(bs[3..]) == 0 && FromBytes(bs[2..]) == 0 && FromBytes(bs[1..]) == 0;
    assert ReadSigned(bs) == 0;
  }
}
