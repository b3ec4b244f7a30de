/** Slices with shared capacity: appending writes into the backing array while there is room. */
module Slices {

  datatype Slice<T(0)> = Slice(buf: array<T>, len: nat) {
    predicate Fits() {
      len <= buf.Length
    }

    function Contents(): seq<T>
      requires Fits()
      reads buf
    {
      buf[..len]
    }
  }

  method Nil<T(0)>() returns (s: Slice<T>)
    ensures fresh(s.buf) && s.Fits() && s.Contents() == []
  {
    var buf := new T[0];
    s := Slice(buf, 0);
  }

  /** Appending in place when the capacity allows, and into a larger copy otherwise. */
  method Append<T(0)>(s: Slice<T>, xs: seq<T>) returns (r: Slice<T>)
    requires s.Fits()
    modifies s.buf
    ensures r.Fits() && r.Contents() == old(s.Contents()) + xs
    ensures s.Contents() == old(s.Contents())
    ensures if s.len + |xs| <= s.buf.Length then r.buf == s.buf else fresh(r.buf)
  {
    var n := s.len + |xs|;
    var buf := s.buf;
    if s.buf.Length < n {
      var size :| n <= size;
      buf := new T[size];
      for i := 0 to s.len
        modifies buf
        invariant buf[..i] == s.buf[..i]
        invariant s.buf[..] == old(s.buf[..])
      {
        buf[i] := s.buf[i];
      }
    }
    ghost var was := old(s.Contents());
    assert buf[..s.len] == was;
    for i := 0 to |xs|
      modifies buf
      invariant buf[..s.len + i] == was + xs[..i]
      invariant buf != s.buf ==> s.buf[..] == old(s.buf[..])
    {
      buf[s.len + i] := xs[i];
      assert buf[..s.len + i + 1] == buf[..s.len + i] + [xs[i]];
    }
    assert xs[..|xs|] == xs;
    r := Slice(buf, n);
    if buf == s.buf {
      assert s.Contents() == buf[..n][..s.len];
    }
  }

  /** A copy that shares nothing: what appending to an empty literal does. */
  method Copy<T(0)>(s: Slice<T>) returns (r: Slice<T>)
    requires s.Fits()
    ensures fresh(r.buf) && r.Fits() && r.Contents() == s.Contents()
  {
    var empty := Nil<T>();
    r := Append(empty, s.Contents());
  }
}
