/** The PHP string built-ins the controller relies on, over byte strings:
    strtolower, trim and explode (with implode as its inverse). */
module PhpStrings {

  /** One byte of a PHP string: a char below 256 stands for the byte with that value,
      so the length of a `Bytes` value is what `strlen` returns. */
  type Byte = c: char | c as int < 256
  type Bytes = seq<Byte>

  /** The bytes PHP's `trim` strips when it is given no character list. */
  const TrimBytes: set<Byte> := {' ', '\t', '\n', '\r', '\0', '\U{000B}'}

  predicate IsUpper(b: Byte) { 'A' <= b <= 'Z' }

  /** `strtolower` on one byte: since PHP 8.2 only the ASCII letters change. */
  function LowerByte(b: Byte): Byte
  {
    if IsUpper(b) then (b as int + 32) as char else b
  }

  /** `strtolower`: lowers every byte and keeps the length. */
  function Lower(s: Bytes): (r: Bytes)
    ensures |r| == |s|
    ensures forall i :: 0 <= i < |s| ==> r[i] == LowerByte(s[i])
  {
    if s == [] then [] else [LowerByte(s[0])] + Lower(s[1..])
  }

  /** The two strings are equal once the letter case of each byte is ignored. */
  predicate EqualIgnoringCase(a: Bytes, b: Bytes)
  {
    |a| == |b| && forall i :: 0 <= i < |a| ==> LowerByte(a[i]) == LowerByte(b[i])
  }

  /** Lowering leaves no upper-case letter and lowering again changes nothing. */
  lemma LowerIsIdempotent(s: Bytes)
    ensures forall i :: 0 <= i < |s| ==> !IsUpper(Lower(s)[i])
    ensures Lower(Lower(s)) == Lower(s)
  {
    var l := Lower(s);
    assert forall i :: 0 <= i < |s| ==> LowerByte(l[i]) == l[i];
  }

  /** Strings that differ only in letter case lower to the same string. */
  lemma LowerIgnoresCase(a: Bytes, b: Bytes)
    requires EqualIgnoringCase(a, b)
    ensures Lower(a) == Lower(b)
  {
    assert forall i :: 0 <= i < |a| ==> Lower(a)[i] == Lower(b)[i];
  }

  /** `ltrim`-half of `trim`: drops the leading trim bytes. */
  function TrimLeft(s: Bytes): (r: Bytes)
    ensures |r| <= |s| && r == s[|s| - |r|..]
    ensures r == [] || r[0] !in TrimBytes
    ensures forall i :: 0 <= i < |s| - |r| ==> s[i] in TrimBytes
  {
    if s != [] && s[0] in TrimBytes then TrimLeft(s[1..]) else s
  }

  /** `rtrim`-half of `trim`: drops the trailing trim bytes. */
  function TrimRight(s: Bytes): (r: Bytes)
    ensures |r| <= |s| && r == s[..|r|]
    ensures r == [] || r[|r| - 1] !in TrimBytes
    ensures forall i :: |r| <= i < |s| ==> s[i] in TrimBytes
  {
    if s != [] && s[|s| - 1] in TrimBytes then TrimRight(s[..|s| - 1]) else s
  }

  /** PHP `trim` with its default character list. */
  function Trim(s: Bytes): Bytes
  {
    TrimRight(TrimLeft(s))
  }

  /** `trim($s) === ''` holds exactly when every byte of `s` is one `trim` strips. */
  lemma TrimEmptyIff(s: Bytes)
    ensures Trim(s) == [] <==> forall i :: 0 <= i < |s| ==> s[i] in TrimBytes
  {
    var l := TrimLeft(s);
    if l != [] {
      assert l[0] !in TrimBytes;
      assert TrimRight(l) != [];
    }
  }

  /** PHP `explode(' ', s)`: the pieces between single spaces, in order. Consecutive
      spaces give empty pieces and the empty string gives one empty piece. */
  function Explode(s: Bytes): (parts: seq<Bytes>)
    ensures |parts| >= 1
    ensures forall p <- parts :: ' ' !in p
  {
    if s == [] then [[]]
    else
      var rest := Explode(s[1..]);
      if s[0] == ' ' then [[]] + rest else [[s[0]] + rest[0]] + rest[1..]
  }

  /** PHP `implode(' ', parts)`: the pieces joined by single spaces. */
  function Implode(parts: seq<Bytes>): Bytes
  {
    if parts == [] then []
    else if |parts| == 1 then parts[0]
    else parts[0] + [' '] + Implode(parts[1..])
  }

  /** Joining the pieces of `explode` with spaces gives back the input. */
  lemma {:induction false} ImplodeExplode(s: Bytes)
    ensures Implode(Explode(s)) == s
  {
    if s != [] {
      var rest := Explode(s[1..]);
      ImplodeExplode(s[1..]);
      if s[0] != ' ' {
        var parts := Explode(s);
        assert parts[1..] == rest[1..];
        if |rest| == 1 {
          assert Implode(parts) == [s[0]] + rest[0];
        } else {
          assert Implode(parts) == [s[0]] + rest[0] + [' '] + Implode(rest[1..]);
          assert Implode(rest) == rest[0] + [' '] + Implode(rest[1..]);
        }
        assert s == [s[0]] + s[1..];
      } else {
        assert Explode(s) == [[]] + rest;
        assert s == [' '] + s[1..];
      }
    }
  }

  /** Splitting a space-free piece on its own gives just that piece. */
  lemma {:induction false} ExplodeSpaceFree(p: Bytes)
    requires ' ' !in p
    ensures Explode(p) == [p]
  {
    if p != [] {
      ExplodeSpaceFree(p[1..]);
      assert [p[0]] + p[1..] == p;
    }
  }

  /** Splitting `p + ' ' + rest` for a space-free `p` gives `p` followed by the pieces of `rest`. */
  lemma {:induction false} ExplodeAfterPiece(p: Bytes, rest: Bytes)
    requires ' ' !in p
    ensures Explode(p + [' '] + rest) == [p] + Explode(rest)
  {
    if p == [] {
      assert p + [' '] + rest == [' '] + rest;
      assert ([' '] + rest)[1..] == rest;
    } else {
      var s := p + [' '] + rest;
      assert s[1..] == p[1..] + [' '] + rest;
      ExplodeAfterPiece(p[1..], rest);
      assert [p[0]] + p[1..] == p;
    }
  }

  /** Exploding the join of space-free pieces gives the pieces back. */
  lemma {:induction false} ExplodeImplode(parts: seq<Bytes>)
    requires |parts| >= 1
    requires forall p <- parts :: ' ' !in p
    ensures Explode(Implode(parts)) == parts
  {
    if |parts| == 1 {
      ExplodeSpaceFree(parts[0]);
    } else {
      ExplodeImplode(parts[1..]);
      ExplodeAfterPiece(parts[0], Implode(parts[1..]));
      assert [parts[0]] + parts[1..] == parts;
    }
  }
}
