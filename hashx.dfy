/**
 * Key derivation (utilx/hashx.py).
 *
 * A key is computed per row from an ordered list of columns: every cell is
 * stringified, the strings are joined with no separator, the composite is
 * hashed with SHA-256 (FIPS 180-4 section 6.2) and the first 16 bytes of the
 * digest become a UUID.  The digest itself is not modelled: it is the
 * parameter `sha`, any function from strings to 32-byte digests, so every
 * lemma here holds for SHA-256 and relies on nothing but its shape.
 */
module HashKeys {

  type Byte = b: int | 0 <= b < 256

  /** A SHA-256 digest: 32 bytes. */
  type Digest = d: seq<Byte> | |d| == 32 witness seq(32, _ => 0)

  /** A derived key: the 16 bytes of a uuid.UUID. */
  type Key = k: seq<Byte> | |k| == 16 witness seq(16, _ => 0)

  /** SHA-256 of the UTF-8 encoding of a string. */
  type Sha256 = string -> Digest

  /** The composite string: the cells joined in column order with no separator. */
  function Composite(cells: seq<string>): (s: string)
    decreases |cells|
  {
    if |cells| == 0 then "" else cells[0] + Composite(cells[1..])
  }

  /** The key of one composite: the first 16 bytes of its digest. */
  function HashKey(sha: Sha256, cells: seq<string>): Key {
    sha(Composite(cells))[..16]
  }

  /** The composite of one column is the cell itself. */
  lemma CompositeOfOne(x: string)
    ensures Composite([x]) == x
  {
    assert [x][1..] == [];
  }

  /** Joining is associative across a split of the column list. */
  lemma {:induction false} CompositeAppend(a: seq<string>, b: seq<string>)
    ensures Composite(a + b) == Composite(a) + Composite(b)
    decreases |a|
  {
    if |a| == 0 {
      assert a + b == b;
    } else {
      assert (a + b)[1..] == a[1..] + b;
      CompositeAppend(a[1..], b);
    }
  }

  /** The length of the composite is the total length of the cells. */
  function TotalLength(cells: seq<string>): nat
    decreases |cells|
  {
    if |cells| == 0 then 0 else |cells[0]| + TotalLength(cells[1..])
  }

  lemma {:induction false} CompositeLength(cells: seq<string>)
    ensures |Composite(cells)| == TotalLength(cells)
    decreases |cells|
  {
    if |cells| > 0 {
      CompositeLength(cells[1..]);
    }
  }

  /** Determinism: the key is a function of the composite alone. */
  lemma EqualCompositesGiveEqualKeys(sha: Sha256, a: seq<string>, b: seq<string>)
    requires Composite(a) == Composite(b)
    ensures HashKey(sha, a) == HashKey(sha, b)
  {
  }

  /**
   * With no separator the boundary between two adjacent columns is lost:
   * moving characters from one cell to its neighbour leaves the key
   * unchanged, whatever the digest.
   */
  lemma {:induction false} BoundaryShiftCollides(sha: Sha256, x: string, y: string, z: string)
    ensures Composite([x + y, z]) == Composite([x, y + z])
    ensures HashKey(sha, [x + y, z]) == HashKey(sha, [x, y + z])
  {
    CompositeOfOne(z);
    CompositeOfOne(y + z);
    assert [x + y, z] == [x + y] + [z];
    assert [x, y + z] == [x] + [y + z];
    CompositeAppend([x + y], [z]);
    CompositeAppend([x], [y + z]);
    CompositeOfOne(x + y);
    CompositeOfOne(x);
  }

  /** The same holds with further columns after the two whose boundary moves. */
  lemma {:induction false} BoundaryShiftCollidesBefore(sha: Sha256, x: string, y: string, z: string, rest: seq<string>)
    ensures HashKey(sha, [x + y, z] + rest) == HashKey(sha, [x, y + z] + rest)
  {
    BoundaryShiftCollides(sha, x, y, z);
    CompositeAppend([x + y, z], rest);
    CompositeAppend([x, y + z], rest);
  }

  /** The instance: the column tuples ["ab", "c"] and ["a", "bc"] share a key. */
  lemma SeparatorCollision(sha: Sha256)
    ensures ["ab", "c"] != ["a", "bc"]
    ensures HashKey(sha, ["ab", "c"]) == HashKey(sha, ["a", "bc"])
  {
    BoundaryShiftCollides(sha, "a", "b", "c");
    assert "a" + "b" == "ab" && "b" + "c" == "bc";
  }

  /** The truncated digest tells two given strings apart (a collision-resistance premise). */
  ghost predicate Distinguishes(sha: Sha256, s: string, t: string) {
    s != t ==> sha(s)[..16] != sha(t)[..16]
  }

  /**
   * Order sensitivity: listing two columns the other way round gives the
   * composite y + x instead of x + y, so the key changes whenever those two
   * concatenations differ and the digest tells them apart.
   */
  lemma {:induction false} SwappedColumnsChangeKey(sha: Sha256, x: string, y: string)
    requires x + y != y + x
    requires Distinguishes(sha, x + y, y + x)
    ensures Composite([x, y]) == x + y && Composite([y, x]) == y + x
    ensures HashKey(sha, [x, y]) != HashKey(sha, [y, x])
  {
    CompositeOfOne(y);
    CompositeOfOne(x);
    assert [x, y][1..] == [y];
    assert [y, x][1..] == [x];
  }

  /** The cells of one row for the listed columns, in column order. */
  function Cells<R>(row: R, columns: seq<R -> string>): (cells: seq<string>)
    ensures |cells| == |columns|
    ensures forall j :: 0 <= j < |columns| ==> cells[j] == columns[j](row)
  {
    seq(|columns|, j requires 0 <= j < |columns| => columns[j](row))
  }

  /** Two rows agree on the listed columns: each listed column gives both the same text. */
  predicate AgreeOn<R>(a: R, b: R, columns: seq<R -> string>) {
    forall c :: 0 <= c < |columns| ==> columns[c](a) == columns[c](b)
  }

  /**
   * generate_hash_key: one key per row, row i's key hashing the composite of
   * row i's listed columns.  Each column function stands for selecting the
   * column and stringifying it.
   */
  function GenerateHashKey<R>(sha: Sha256, rows: seq<R>, columns: seq<R -> string>): (keys: seq<Key>)
    ensures |keys| == |rows|
    ensures forall i :: 0 <= i < |rows| ==> keys[i] == sha(Composite(Cells(rows[i], columns)))[..16]
    ensures forall i, j :: 0 <= i < |rows| && 0 <= j < |rows| && AgreeOn(rows[i], rows[j], columns) ==> keys[i] == keys[j]
  {
    assert forall i, j :: 0 <= i < |rows| && 0 <= j < |rows| && AgreeOn(rows[i], rows[j], columns) ==>
      Cells(rows[i], columns) == Cells(rows[j], columns);
    seq(|rows|, i requires 0 <= i < |rows| => HashKey(sha, Cells(rows[i], columns)))
  }

  /** A row's key depends only on that row's listed columns: neither its position nor the other rows matter. */
  lemma {:induction false} KeyDependsOnlyOnListedColumns<R>(sha: Sha256, rows: seq<R>, others: seq<R>, columns: seq<R -> string>, i: nat, j: nat)
    requires i < |rows| && j < |others|
    requires AgreeOn(rows[i], others[j], columns)
    ensures GenerateHashKey(sha, rows, columns)[i] == GenerateHashKey(sha, others, columns)[j]
  {
    assert Cells(rows[i], columns) == Cells(others[j], columns);
  }

  // ---------------------------------------------------------------------------
  // str(uuid.UUID): 32 lower-case hexadecimal digits grouped 8-4-4-4-12.

  function HexDigit(n: nat): char
    requires n < 16
  {
    if n < 10 then ('0' as int + n) as char else ('a' as int + n - 10) as char
  }

  function HexValue(c: char): (n: nat)
    ensures n < 16
  {
    if '0' <= c <= '9' then c as int - '0' as int
    else if 'a' <= c <= 'f' then c as int - 'a' as int + 10
    else 0
  }

  function Hex(bytes: seq<Byte>): (s: string)
    ensures |s| == 2 * |bytes|
    decreases |bytes|
  {
    if |bytes| == 0 then ""
    else [HexDigit(bytes[0] / 16), HexDigit(bytes[0] % 16)] + Hex(bytes[1..])
  }

  function Unhex(s: string): (bytes: seq<Byte>)
    requires |s| % 2 == 0
    ensures |bytes| == |s| / 2
    decreases |s|
  {
    if |s| == 0 then []
    else [HexValue(s[0]) * 16 + HexValue(s[1])] + Unhex(s[2..])
  }

  lemma {:induction false} UnhexHex(bytes: seq<Byte>)
    ensures Unhex(Hex(bytes)) == bytes
    decreases |bytes|
  {
    if |bytes| > 0 {
      var b := bytes[0];
      assert HexValue(HexDigit(b / 16)) == b / 16;
      assert HexValue(HexDigit(b % 16)) == b % 16;
      assert Hex(bytes)[2..] == Hex(bytes[1..]);
      UnhexHex(bytes[1..]);
    }
  }

  /** The canonical text of a key, as astype(str) renders a UUID column. */
  function UuidText(k: Key): (s: string)
    ensures |s| == 36
  {
    Hex(k[..4]) + "-" + Hex(k[4..6]) + "-" + Hex(k[6..8]) + "-" + Hex(k[8..10]) + "-" + Hex(k[10..])
  }

  /** Reads the bytes back from the canonical text. */
  function ParseUuid(s: string): seq<Byte>
    requires |s| == 36
  {
    Unhex(s[..8]) + Unhex(s[9..13]) + Unhex(s[14..18]) + Unhex(s[19..23]) + Unhex(s[24..])
  }

  /** Rendering a key and parsing the text gives the key back. */
  lemma UuidTextRoundTrip(k: Key)
    ensures ParseUuid(UuidText(k)) == k
  {
    var s := UuidText(k);
    assert s[..8] == Hex(k[..4]);
    assert s[9..13] == Hex(k[4..6]);
    assert s[14..18] == Hex(k[6..8]);
    assert s[19..23] == Hex(k[8..10]);
    assert s[24..] == Hex(k[10..]);
    UnhexHex(k[..4]);
    UnhexHex(k[4..6]);
    UnhexHex(k[6..8]);
    UnhexHex(k[8..10]);
    UnhexHex(k[10..]);
    assert k == k[..4] + k[4..6] + k[6..8] + k[8..10] + k[10..];
  }

  /** Distinct keys have distinct texts. */
  lemma UuidTextInjective(a: Key, b: Key)
    requires UuidText(a) == UuidText(b)
    ensures a == b
  {
    UuidTextRoundTrip(a);
    UuidTextRoundTrip(b);
  }

  /**
   * The composite of two key texts is unambiguous: each text is 36
   * characters wide, so the separator-free concatenation that merges
   * ["ab", "c"] with ["a", "bc"] cannot merge two different key pairs.
   */
  lemma KeyPairCompositeUnambiguous(a: Key, b: Key, c: Key, d: Key)
    requires Composite([UuidText(a), UuidText(b)]) == Composite([UuidText(c), UuidText(d)])
    ensures a == c && b == d
  {
    var ab := [UuidText(a)] + [UuidText(b)];
    var cd := [UuidText(c)] + [UuidText(d)];
    assert [UuidText(a), UuidText(b)] == ab && [UuidText(c), UuidText(d)] == cd;
    CompositeAppend([UuidText(a)], [UuidText(b)]);
    CompositeAppend([UuidText(c)], [UuidText(d)]);
    CompositeOfOne(UuidText(a));
    CompositeOfOne(UuidText(b));
    CompositeOfOne(UuidText(c));
    CompositeOfOne(UuidText(d));
    var s := UuidText(a) + UuidText(b);
    assert s == UuidText(c) + UuidText(d);
    assert UuidText(a) == s[..36] == UuidText(c);
    assert UuidText(b) == s[36..] == UuidText(d);
    UuidTextInjective(a, c);
    UuidTextInjective(b, d);
  }
}
