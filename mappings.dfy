/** GetCollectionMappings of models/models.go: the collection_mappings rows
    become a map from the Outline collection (its sanitized directory name) to
    the list of knowledge-collection ids, obtained by splitting the stored
    comma-separated string and trimming every piece. The stored string is
    written by strings.Join(ids, ",") in handlers/mappings.go:38; Join is the
    partner against which the decoding is proved. */
module Mappings {
  import opened Common

  /** A row of collection_mappings; the key, timestamps and soft-delete column
      play no part in the decoding. */
  datatype CollectionMapping = CollectionMapping(outlineCollection: string, openWebUiCollections: string)

  // ---------------------------------------------------------------------------
  // strings.Split, strings.Join and strings.TrimSpace

  /** strings.Split(s, sep) for a one-character separator: the pieces between
      separators; the empty string gives one empty piece. */
  function Split(s: string, sep: char): (r: seq<string>)
    ensures |r| >= 1
    decreases |s|
  {
    if s == [] then [""]
    else
      var rest := Split(s[1..], sep);
      if s[0] == sep then [""] + rest else [[s[0]] + rest[0]] + rest[1..]
  }

  /** strings.Join(xs, sep) for a one-character separator. */
  function Join(xs: seq<string>, sep: char): string
    decreases |xs|
  {
    if xs == [] then ""
    else if |xs| == 1 then xs[0]
    else xs[0] + [sep] + Join(xs[1..], sep)
  }

  function Count(s: string, c: char): nat
    decreases |s|
  {
    if s == [] then 0 else (if s[0] == c then 1 else 0) + Count(s[1..], c)
  }

  /** unicode.IsSpace: the ASCII spaces \t \n \v \f \r and ' ', U+0085, U+00A0
      and the other Unicode White_Space characters. */
  predicate IsSpace(c: char) {
    var n := c as int;
    || n == 0x20 || 0x09 <= n <= 0x0D || n == 0x85 || n == 0xA0 || n == 0x1680
    || 0x2000 <= n <= 0x200A || n == 0x2028 || n == 0x2029 || n == 0x202F
    || n == 0x205F || n == 0x3000
  }

  function TrimLeftSpace(s: string): string
    decreases |s|
  {
    if s != [] && IsSpace(s[0]) then TrimLeftSpace(s[1..]) else s
  }

  function TrimRightSpace(s: string): string
    decreases |s|
  {
    if s != [] && IsSpace(s[|s| - 1]) then TrimRightSpace(s[..|s| - 1]) else s
  }

  /** strings.TrimSpace. */
  function TrimSpace(s: string): string {
    TrimRightSpace(TrimLeftSpace(s))
  }

  /** No surrounding white space: what TrimSpace leaves alone. */
  predicate IsTrimmed(s: string) {
    s == [] || (!IsSpace(s[0]) && !IsSpace(s[|s| - 1]))
  }

  function TrimAll(xs: seq<string>): (r: seq<string>)
    ensures |r| == |xs|
    ensures forall i :: 0 <= i < |xs| ==> r[i] == TrimSpace(xs[i])
  {
    seq(|xs|, i requires 0 <= i < |xs| => TrimSpace(xs[i]))
  }

  /** The ids stored in one row. */
  function DecodeIds(stored: string): seq<string> {
    TrimAll(Split(stored, ','))
  }

  /** The map built from the rows in order: a later row overwrites an earlier
      one with the same key. */
  function MappingsOf(rows: seq<CollectionMapping>): map<string, seq<string>>
    decreases |rows|
  {
    if rows == [] then map[]
    else
      var last := rows[|rows| - 1];
      MappingsOf(rows[..|rows| - 1])[last.outlineCollection := DecodeIds(last.openWebUiCollections)]
  }

  // ---------------------------------------------------------------------------
  // The imperative decoder

  /** The inner loop: every element of the slice trimmed in place. */
  method TrimInPlace(ids: array<string>)
    modifies ids
    ensures ids[..] == TrimAll(old(ids[..]))
  {
    for i := 0 to ids.Length
      invariant forall j :: 0 <= j < i ==> ids[j] == TrimSpace(old(ids[j]))
      invariant forall j :: i <= j < ids.Length ==> ids[j] == old(ids[j])
    {
      ids[i] := TrimSpace(ids[i]);
    }
  }

  /** GetCollectionMappings; the database read is its argument. A read error is
      returned as it is, with no map. */
  method GetCollectionMappings(db: Result<seq<CollectionMapping>>) returns (r: Result<map<string, seq<string>>>)
    ensures r.Failure? <==> db.Failure?
    ensures r.Failure? ==> r.error == db.error
    ensures r.Success? ==> r.value == MappingsOf(db.value)
  {
    if db.Failure? {
      return Failure(db.error);
    }
    var mappings := db.value;
    var result: map<string, seq<string>> := map[];
    for k := 0 to |mappings|
      invariant result == MappingsOf(mappings[..k])
    {
      var mapping := mappings[k];
      var pieces := Split(mapping.openWebUiCollections, ',');
      var ids := new string[|pieces|](i requires 0 <= i < |pieces| => pieces[i]);
      assert ids[..] == pieces;
      TrimInPlace(ids);
      assert mappings[..k + 1][..k] == mappings[..k];
      result := result[mapping.outlineCollection := ids[..]];
    }
    assert mappings[..|mappings|] == mappings;
    return Success(result);
  }

  // ---------------------------------------------------------------------------
  // Properties of Split, Join and TrimSpace

  /** Split yields one more piece than there are separators, and no piece
      contains the separator. */
  lemma {:induction false} SplitCount(s: string, sep: char)
    ensures |Split(s, sep)| == Count(s, sep) + 1
    ensures forall i :: 0 <= i < |Split(s, sep)| ==> sep !in Split(s, sep)[i]
    decreases |s|
  {
    if s != [] {
      SplitCount(s[1..], sep);
      var rest := Split(s[1..], sep);
      if s[0] != sep {
        var r := Split(s, sep);
        assert r[0] == [s[0]] + rest[0];
        forall i | 0 < i < |r| ensures sep !in r[i] {
          assert r[i] == rest[i];
        }
      }
    }
  }

  /** A piece without the separator splits to itself. */
  lemma {:induction false} SplitNoSep(a: string, sep: char)
    requires sep !in a
    ensures Split(a, sep) == [a]
    decreases |a|
  {
    if a != [] {
      assert a[0] != sep && sep !in a[1..];
      SplitNoSep(a[1..], sep);
      assert [a[0]] + a[1..] == a;
    }
  }

  /** Splitting "a<sep>b" with a free of the separator peels off a. */
  lemma {:induction false} SplitCons(a: string, b: string, sep: char)
    requires sep !in a
    ensures Split(a + [sep] + b, sep) == [a] + Split(b, sep)
    decreases |a|
  {
    if a == [] {
      assert a + [sep] + b == [sep] + b;
      assert ([sep] + b)[1..] == b;
    } else {
      var s := a + [sep] + b;
      assert s[0] == a[0];
      assert s[1..] == a[1..] + [sep] + b;
      SplitCons(a[1..], b, sep);
      assert [a[0]] + a[1..] == a;
    }
  }

  /** Split undoes Join on a non-empty list whose items do not contain the
      separator. */
  lemma {:induction false} SplitJoin(xs: seq<string>, sep: char)
    requires |xs| >= 1
    requires forall i :: 0 <= i < |xs| ==> sep !in xs[i]
    ensures Split(Join(xs, sep), sep) == xs
    decreases |xs|
  {
    if |xs| == 1 {
      SplitNoSep(xs[0], sep);
    } else {
      SplitJoin(xs[1..], sep);
      SplitCons(xs[0], Join(xs[1..], sep), sep);
      assert [xs[0]] + xs[1..] == xs;
    }
  }

  lemma TrimSpaceOfTrimmed(s: string)
    requires IsTrimmed(s)
    ensures TrimSpace(s) == s
  {
    assert TrimLeftSpace(s) == s;
  }

  /** What TrimSpace returns is trimmed. */
  lemma {:induction false} TrimSpaceIsTrimmed(s: string)
    ensures IsTrimmed(TrimSpace(s))
  {
    TrimLeftSpaceStops(s);
    TrimRightSpaceStops(TrimLeftSpace(s));
    TrimRightSpaceIsPrefix(TrimLeftSpace(s));
  }

  lemma {:induction false} TrimLeftSpaceStops(s: string)
    ensures TrimLeftSpace(s) == [] || !IsSpace(TrimLeftSpace(s)[0])
    decreases |s|
  {
    if s != [] && IsSpace(s[0]) {
      TrimLeftSpaceStops(s[1..]);
    }
  }

  lemma {:induction false} TrimRightSpaceStops(s: string)
    ensures TrimRightSpace(s) == [] || !IsSpace(TrimRightSpace(s)[|TrimRightSpace(s)| - 1])
    decreases |s|
  {
    if s != [] && IsSpace(s[|s| - 1]) {
      TrimRightSpaceStops(s[..|s| - 1]);
    }
  }

  lemma {:induction false} TrimRightSpaceIsPrefix(s: string)
    ensures |TrimRightSpace(s)| <= |s| && TrimRightSpace(s) == s[..|TrimRightSpace(s)|]
    decreases |s|
  {
    if s != [] && IsSpace(s[|s| - 1]) {
      TrimRightSpaceIsPrefix(s[..|s| - 1]);
    }
  }

  // ---------------------------------------------------------------------------
  // Properties of the decoding

  /** A row stores one id more than it has commas (so "" stores one empty id),
      and every decoded id is trimmed and free of commas. */
  lemma DecodeIdsShape(stored: string)
    ensures |DecodeIds(stored)| == Count(stored, ',') + 1
    ensures forall i :: 0 <= i < |DecodeIds(stored)| ==> IsTrimmed(DecodeIds(stored)[i])
  {
    SplitCount(stored, ',');
    forall i | 0 <= i < |DecodeIds(stored)| ensures IsTrimmed(DecodeIds(stored)[i]) {
      TrimSpaceIsTrimmed(Split(stored, ',')[i]);
    }
  }

  /** The round trip with handlers/mappings.go:38: a non-empty list of ids
      without commas and without surrounding white space, joined with "," and
      decoded, comes back unchanged. */
  lemma DecodeJoinRoundTrip(xs: seq<string>)
    requires |xs| >= 1
    requires forall i :: 0 <= i < |xs| ==> ',' !in xs[i] && IsTrimmed(xs[i])
    ensures DecodeIds(Join(xs, ',')) == xs
  {
    SplitJoin(xs, ',');
    forall i | 0 <= i < |xs| ensures TrimSpace(xs[i]) == xs[i] {
      TrimSpaceOfTrimmed(xs[i]);
    }
  }

  /** The empty list does not survive: it is stored as "" and read back as
      one empty id. */
  lemma DecodeEmptyJoin()
    ensures DecodeIds(Join([], ',')) == [""]
  {
    assert TrimSpace("") == "";
  }

  /** Surrounding white space added around the items is dropped again. */
  lemma DecodePaddedIds()
    ensures DecodeIds("a, b") == ["a", "b"]
  {
    assert "a, b" == "a" + [','] + " b";
    SplitCons("a", " b", ',');
    SplitNoSep(" b", ',');
    assert TrimLeftSpace(" b") == "b";
    assert TrimSpace("a") == "a";
  }

  /** The keys of the result are exactly the collections named by the rows. */
  lemma {:induction false} MappingsKeys(rows: seq<CollectionMapping>)
    ensures MappingsOf(rows).Keys == set i | 0 <= i < |rows| :: rows[i].outlineCollection
    decreases |rows|
  {
    if rows != [] {
      var init := rows[..|rows| - 1];
      MappingsKeys(init);
      assert forall i :: 0 <= i < |init| ==> init[i] == rows[i];
    }
  }

  /** A key's ids are those of the last row naming it. */
  lemma {:induction false} MappingsLastRowWins(rows: seq<CollectionMapping>, i: nat)
    requires i < |rows|
    requires forall j :: i < j < |rows| ==> rows[j].outlineCollection != rows[i].outlineCollection
    ensures rows[i].outlineCollection in MappingsOf(rows)
    ensures MappingsOf(rows)[rows[i].outlineCollection] == DecodeIds(rows[i].openWebUiCollections)
    decreases |rows|
  {
    if i < |rows| - 1 {
      var init := rows[..|rows| - 1];
      assert init[i] == rows[i];
      MappingsLastRowWins(init, i);
    }
  }
}
