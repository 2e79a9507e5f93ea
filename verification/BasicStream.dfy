/**
 IceInternal::BasicStream: a buffer that is appended to, a cursor that reads it, and stacks of open
 encapsulations. An encapsulation's length is not known when it is opened, so it is written as zero and
 patched when it is closed.
 */
module BasicStream {
  import opened EvictorTypes
  import opened ByteStrings
  import opened Wire
  import E = Encapsulation

  class Stream {
    var b: seq<byte>
    var i: nat
    var writeEncaps: seq<nat>      // where each open encapsulation starts, innermost last
    var readEncaps: seq<E.Frame>

    constructor (b: seq<byte>)
      ensures this.b == b && i == 0 && writeEncaps == [] && readEncaps == []
    {
      this.b, i, writeEncaps, readEncaps := b, 0, [], [];
    }

    ghost function Writer(): E.Writer
      reads this
    {
      E.Writer(b, writeEncaps)
    }

    ghost function Reader(): E.Reader
      reads this
    {
      E.Reader(b, i, readEncaps)
    }

    ghost predicate Valid()
      reads this
    {
      i <= |b|
    }

    /** What is left to read. */
    function Left(): seq<byte>
      reads this
      requires Valid()
    {
      b[i..]
    }

    method WriteByte(v: byte)
      modifies this`b
      ensures b == old(b) + [v]
    {
      b := b + [v];
    }

    /** write(Short), write(Int), write(Long): resize, then fill in byte by byte. */
    method WriteInteger(v: int, n: nat)
      modifies this`b
      ensures b == old(b) + WriteSigned(v, n)
    {
      var u, k := v % Pow(n), 0;
      while k < n
        invariant k <= n && u >= 0 && b + ToBytes(u, n - k) == old(b) + WriteSigned(v, n)
      {
        assert b + ToBytes(u, n - k) == (b + [(u % 256) as byte]) + ToBytes(u / 256, n - k - 1);
        b := b + [(u % 256) as byte];
        u, k := u / 256, k + 1;
      }
    }

    method WriteSize(v: nat)
      modifies this`b
      ensures b == old(b) + SizeBytes(v)
    {
      if v > 254 {
        WriteByte(255);
        WriteInteger(v, 4);
      } else {
        WriteByte(v as byte);
      }
    }

    method WriteString(v: seq<byte>)
      modifies this`b
      ensures b == old(b) + StringBytes(v)
    {
      WriteSize(|v|);
      b := b + v;
    }

    /** A read that succeeded consumed what its parser consumes; None is UnmarshalOutOfBoundsException or NegativeSizeException. */
    twostate predicate Reads<T>(new r: Option<T>, new p: Parsed<T>)
      requires old(Valid())
      reads this
    {
      && Valid() && b == old(b)
      && match p
         case Bad => r.None?
         case Ok(v, rest) => r == Some(v) && Left() == rest
    }

    method ReadByte() returns (r: Option<int>)
      requires Valid()
      modifies this`i
      ensures Reads(r, ParseByte(old(Left())))
    {
      if i >= |b| {
        return None;
      }
      r := Some(b[i] as int);
      i := i + 1;
    }

    method ReadInteger(n: nat) returns (r: Option<int>)
      requires Valid()
      modifies this`i
      ensures Reads(r, ParseSigned(old(Left()), n))
    {
      if |b| - i < n {
        return None;
      }
      assert b[i..i + n] == Left()[..n];
      r := Some(ReadSigned(b[i..i + n]));
      i := i + n;
    }

    method ReadSize() returns (r: Option<int>)
      requires Valid()
      modifies this`i
      ensures Reads(r, ParseSize(old(Left())))
    {
      r := ReadByte();
      if r == Some(255) {
        r := ReadInteger(4);
        if r.Some? && r.value < 0 {
          r := None;
        }
      }
    }

    method ReadString() returns (r: Option<seq<byte>>)
      requires Valid()
      modifies this`i
      ensures Reads(r, ParseString(old(Left())))
    {
      var size := ReadSize();
      if size.None? || |b| - i < size.value {
        return None;
      }
      assert Left()[..size.value] == b[i..i + size.value];
      r := Some(b[i..i + size.value]);
      i := i + size.value;
    }

    method StartWriteEncaps()
      modifies this`b, this`writeEncaps
      ensures Writer() == E.Opened(old(Writer()))
    {
      writeEncaps := writeEncaps + [|b|];
      WriteInteger(0, 4);   // placeholder for the length
      WriteByte(1);
      WriteByte(0);
      assert b == old(b) + (WriteSigned(0, 4) + E.VERSION);
    }

    method EndWriteEncaps()
      requires writeEncaps != [] && E.Innermost(Writer()) + 4 <= |b|
      modifies this`b, this`writeEncaps
      ensures Writer() == E.ClosedOne(old(Writer()))
    {
      var start := writeEncaps[|writeEncaps| - 1];
      assert start == E.Innermost(Writer());
      var bytes := WriteSigned(|b| - start, 4);
      var k := 0;
      while k < 4
        invariant k <= 4 && |b| == |old(b)| && writeEncaps == old(writeEncaps)
        invariant forall j :: 0 <= j < |b| ==> b[j] == if start <= j < start + k then bytes[j - start] else old(b)[j]
      {
        b := b[start + k := bytes[k]];
        k := k + 1;
      }
      assert b == E.Patched(old(b), start, |old(b)| - start);
      writeEncaps := writeEncaps[..|writeEncaps| - 1];
    }

    /** False for one of the exceptions of startReadEncaps. */
    method StartReadEncaps() returns (ok: bool)
      requires Valid()
      modifies this`i, this`readEncaps
      ensures ok == E.Entered(old(Reader())).Some?
      ensures ok ==> Some(Reader()) == E.Entered(old(Reader()))
    {
      var start := i;
      assert |b| - i >= 4 ==> Left()[..4] == b[i..i + 4];
      var sz := ReadInteger(4);
      if sz.None? || sz.value < 0 || start + sz.value > |b| {
        return false;
      }
      assert i == start + 4;
      var major := ReadByte();
      var minor := ReadByte();
      if major != Some(1) || minor.None? || minor.value > 0 {
        return false;
      }
      assert i == start + E.HEADER;
      readEncaps := readEncaps + [E.Frame(start, sz.value)];
      ok := true;
    }

    method EndReadEncaps()
      requires readEncaps != []
      modifies this`i, this`readEncaps
      ensures Reader() == E.Exited(old(Reader()))
    {
      var top := readEncaps[|readEncaps| - 1];
      i := top.start + top.sz;
      readEncaps := readEncaps[..|readEncaps| - 1];
    }
  }
}
