/** `cn` of src/lib/utils.ts: each input becomes a piece of text and the
    pieces are joined with one space each. The joining is checked against its
    inverse, splitting on the separator. */
module ClassNames {

  /** A `ClassValue`: a string, an array of strings, a record of booleans
      (its entries in enumeration order), a boolean, `null` or `undefined`. */
  datatype ClassValue =
    | Undefined
    | NullValue
    | BoolValue(b: bool)
    | StringValue(s: string)
    | ArrayValue(items: seq<string>)
    | ObjectValue(entries: seq<(string, bool)>)

  /** `pieces.join(sep)`: the empty array joins to `""`. */
  function Join(pieces: seq<string>, sep: char): (r: string)
    ensures |pieces| == 0 ==> r == ""
    ensures |pieces| == 1 ==> r == pieces[0]
    decreases |pieces|
  {
    if |pieces| == 0 then ""
    else if |pieces| == 1 then pieces[0]
    else pieces[0] + [sep] + Join(pieces[1..], sep)
  }

  /** `s.split(sep)`: the pieces between occurrences of `sep`; the empty
      string splits to one empty piece. */
  function Split(s: string, sep: char): (parts: seq<string>)
    ensures |parts| >= 1
    decreases |s|
  {
    if |s| == 0 then [""]
    else if s[0] == sep then [""] + Split(s[1..], sep)
    else
      var rest := Split(s[1..], sep);
      [[s[0]] + rest[0]] + rest[1..]
  }

  /** A prefix without the separator is glued onto the first piece. */
  lemma {:induction false} SplitPrefix(a: string, t: string, sep: char)
    requires sep !in a
    ensures Split(a + t, sep) == [a + Split(t, sep)[0]] + Split(t, sep)[1..]
    decreases |a|
  {
    if |a| > 0 {
      assert (a + t)[0] == a[0];
      assert (a + t)[1..] == a[1..] + t;
      SplitPrefix(a[1..], t, sep);
      assert [a[0]] + (a[1..] + Split(t, sep)[0]) == a + Split(t, sep)[0];
    } else {
      var parts := Split(t, sep);
      assert a + t == t;
      assert a + parts[0] == parts[0];
      assert [parts[0]] + parts[1..] == parts;
    }
  }

  /** Splitting undoes joining whenever no piece contains the separator. */
  lemma {:induction false} SplitJoin(pieces: seq<string>, sep: char)
    requires |pieces| >= 1
    requires forall i :: 0 <= i < |pieces| ==> sep !in pieces[i]
    ensures Split(Join(pieces, sep), sep) == pieces
    decreases |pieces|
  {
    if |pieces| == 1 {
      SplitPrefix(pieces[0], "", sep);
      assert pieces[0] + "" == pieces[0];
    } else {
      var tail := Join(pieces[1..], sep);
      SplitJoin(pieces[1..], sep);
      assert Split([sep] + tail, sep) == [""] + Split(tail, sep);
      SplitPrefix(pieces[0], [sep] + tail, sep);
      assert pieces[0] + [sep] + tail == pieces[0] + ([sep] + tail);
      assert pieces[0] + "" == pieces[0];
      assert [pieces[0]] + pieces[1..] == pieces;
    }
  }

  /** The total length of a list of strings. */
  function TotalLength(pieces: seq<string>): nat
    decreases |pieces|
  {
    if |pieces| == 0 then 0 else |pieces[0]| + TotalLength(pieces[1..])
  }

  /** A join adds exactly one separator between neighbouring pieces. */
  lemma {:induction false} JoinLength(pieces: seq<string>, sep: char)
    requires |pieces| >= 1
    ensures |Join(pieces, sep)| == TotalLength(pieces) + |pieces| - 1
    decreases |pieces|
  {
    if |pieces| > 1 {
      JoinLength(pieces[1..], sep);
    } else {
      assert TotalLength(pieces[1..]) == 0;
    }
  }

  /** The keys whose value is truthy, in entry order: exactly the keys of the
      truthy entries are listed. */
  function TruthyKeys(entries: seq<(string, bool)>): (keys: seq<string>)
    ensures |keys| <= |entries|
    ensures forall k :: k in keys ==> (k, true) in entries
    ensures forall i :: 0 <= i < |entries| && entries[i].1 ==> entries[i].0 in keys
    decreases |entries|
  {
    if |entries| == 0 then []
    else if entries[0].1 then [entries[0].0] + TruthyKeys(entries[1..])
    else TruthyKeys(entries[1..])
  }

  /** The order of the listed keys follows the entries: one more entry adds
      its key at the end when it is truthy and nothing otherwise. */
  lemma {:induction false} TruthyKeysSnoc(e: seq<(string, bool)>, k: string, b: bool)
    ensures TruthyKeys(e + [(k, b)]) == TruthyKeys(e) + (if b then [k] else [])
    decreases |e|
  {
    if |e| == 0 {
      assert e + [(k, b)] == [(k, b)];
      assert TruthyKeys([(k, b)][1..]) == [];
    } else {
      assert (e + [(k, b)])[0] == e[0];
      assert (e + [(k, b)])[1..] == e[1..] + [(k, b)];
      TruthyKeysSnoc(e[1..], k, b);
    }
  }

  /** Splitting a string that has the separator at a known place splits the
      two sides independently. */
  lemma {:induction false} SplitConcat(a: string, b: string, sep: char)
    ensures Split(a + [sep] + b, sep) == Split(a, sep) + Split(b, sep)
    decreases |a|
  {
    if |a| == 0 {
      assert a + [sep] + b == [sep] + b;
      assert ([sep] + b)[1..] == b;
    } else {
      var t := a + [sep] + b;
      assert t[0] == a[0];
      assert t[1..] == a[1..] + [sep] + b;
      SplitConcat(a[1..], b, sep);
      if a[0] != sep {
        var rest := Split(t[1..], sep);
        var ra := Split(a[1..], sep);
        assert rest == ra + Split(b, sep);
        assert rest[0] == ra[0];
        assert rest[1..] == ra[1..] + Split(b, sep);
      }
    }
  }

  /** Joining the split pieces gives back the string. */
  lemma {:induction false} JoinSplit(s: string, sep: char)
    ensures Join(Split(s, sep), sep) == s
    decreases |s|
  {
    if |s| > 0 {
      JoinSplit(s[1..], sep);
      var rest := Split(s[1..], sep);
      if s[0] == sep {
        var parts := [""] + rest;
        assert parts[1..] == rest;
        assert Join(parts, sep) == "" + [sep] + Join(rest, sep);
        assert s == [s[0]] + s[1..];
      } else {
        var parts := [[s[0]] + rest[0]] + rest[1..];
        if |rest| == 1 {
          assert Join(parts, sep) == [s[0]] + rest[0];
        } else {
          assert parts[1..] == rest[1..];
          assert Join(rest, sep) == rest[0] + [sep] + Join(rest[1..], sep);
          assert Join(parts, sep) == ([s[0]] + rest[0]) + [sep] + Join(rest[1..], sep);
        }
        assert s == [s[0]] + s[1..];
      }
    }
  }

  /** The words of a list of strings: each one split on the separator, in
      order. */
  function SplitAll(pieces: seq<string>, sep: char): seq<string>
    decreases |pieces|
  {
    if |pieces| == 0 then [] else Split(pieces[0], sep) + SplitAll(pieces[1..], sep)
  }

  /** Splitting a join gives the words of all pieces, whatever they contain. */
  lemma {:induction false} SplitJoinAll(pieces: seq<string>, sep: char)
    requires |pieces| >= 1
    ensures Split(Join(pieces, sep), sep) == SplitAll(pieces, sep)
    decreases |pieces|
  {
    if |pieces| == 1 {
      assert SplitAll(pieces[1..], sep) == [];
      assert Split(pieces[0], sep) + [] == Split(pieces[0], sep);
    } else {
      SplitJoinAll(pieces[1..], sep);
      SplitConcat(pieces[0], Join(pieces[1..], sep), sep);
    }
  }

  /** A piece without the separator is a single word. */
  lemma SplitFree(p: string, sep: char)
    requires sep !in p
    ensures Split(p, sep) == [p]
  {
    SplitPrefix(p, "", sep);
    assert p + "" == p;
  }

  /** When no piece holds the separator, its words are the pieces themselves. */
  lemma {:induction false} SplitAllFree(pieces: seq<string>, sep: char)
    requires forall i :: 0 <= i < |pieces| ==> sep !in pieces[i]
    ensures SplitAll(pieces, sep) == pieces
    decreases |pieces|
  {
    if |pieces| > 0 {
      SplitFree(pieces[0], sep);
      SplitAllFree(pieces[1..], sep);
      assert [pieces[0]] + pieces[1..] == pieces;
    }
  }

  /** The piece one input contributes (`handle`): falsy inputs give `""`, a
      string passes through, `true` gives `"true"`, an array gives the words of its items, a record gives the words of its
      truthy keys, in entry order. */
  function Piece(v: ClassValue): (r: string)
    ensures v.Undefined? || v.NullValue? || v == BoolValue(false) ==> r == ""
    ensures v.StringValue? ==> r == v.s
    ensures v == BoolValue(true) ==> r == "true"
    ensures v.ArrayValue? && |v.items| == 0 ==> r == ""
    ensures v.ArrayValue? && |v.items| >= 1 ==> Split(r, ' ') == SplitAll(v.items, ' ')
    ensures v.ObjectValue? && (forall i :: 0 <= i < |v.entries| ==> !v.entries[i].1) ==> r == ""
    ensures v.ObjectValue? && |TruthyKeys(v.entries)| >= 1 ==> Split(r, ' ') == SplitAll(TruthyKeys(v.entries), ' ')
  {
    match v
    case Undefined => ""
    case NullValue => ""
    case BoolValue(b) => if b then "true" else ""
    case StringValue(s) => s
    case ArrayValue(items) =>
      if |items| == 0 then "" else SplitJoinAll(items, ' '); Join(items, ' ')
    case ObjectValue(entries) =>
      var keys := TruthyKeys(entries);
      if |keys| == 0 then ""
      else
        assert (keys[0], true) in entries;
        SplitJoinAll(keys, ' '); Join(keys, ' ')
  }

  function Pieces(inputs: seq<ClassValue>): (ps: seq<string>)
    ensures |ps| == |inputs|
    ensures forall i :: 0 <= i < |inputs| ==> ps[i] == Piece(inputs[i])
  {
    seq(|inputs|, i requires 0 <= i < |inputs| => Piece(inputs[i]))
  }

  /** `cn(...inputs)`: the pieces joined with single spaces. Falsy inputs
      contribute empty pieces but keep their separators, so the result has
      exactly one space per neighbouring pair of inputs on top of the pieces'
      own characters. */
  function Cn(inputs: seq<ClassValue>): (r: string)
    ensures |inputs| >= 1 ==> |r| == TotalLength(Pieces(inputs)) + |inputs| - 1
    ensures |inputs| >= 1 ==> Split(r, ' ') == SplitAll(Pieces(inputs), ' ')
    ensures |inputs| == 0 ==> r == ""
  {
    var ps := Pieces(inputs);
    if |ps| == 0 then ""
    else JoinLength(ps, ' '); SplitJoinAll(ps, ' '); Join(ps, ' ')
  }

  /** The words of `Cn` determine it: any string with the same words is the
      result. */
  lemma CnDetermined(inputs: seq<ClassValue>, x: string)
    requires |inputs| >= 1
    requires Split(x, ' ') == SplitAll(Pieces(inputs), ' ')
    ensures x == Cn(inputs)
  {
    JoinSplit(x, ' ');
    JoinSplit(Cn(inputs), ' ');
  }

  /** The truthy keys of a record whose keys hold no separator hold none. */
  lemma TruthyKeysFree(entries: seq<(string, bool)>, sep: char)
    requires forall i :: 0 <= i < |entries| ==> sep !in entries[i].0
    ensures forall j :: 0 <= j < |TruthyKeys(entries)| ==> sep !in TruthyKeys(entries)[j]
  {
  }

  /** The words of three pieces are the words of each, in order. */
  lemma SplitAllThree(p0: string, p1: string, p2: string, sep: char)
    ensures SplitAll([p0, p1, p2], sep) == Split(p0, sep) + Split(p1, sep) + Split(p2, sep)
  {
    var ps := [p0, p1, p2];
    assert ps[1..] == [p1, p2];
    assert ps[1..][1..] == [p2];
    assert ps[1..][1..][1..] == [];
    assert SplitAll([p2], sep) == Split(p2, sep) + SplitAll([], sep);
    assert SplitAll([p1, p2], sep) == Split(p1, sep) + SplitAll([p2], sep);
    assert SplitAll(ps, sep) == Split(p0, sep) + SplitAll([p1, p2], sep);
  }

  /** `cn(a, items, record)`, e.g. `cn("a", ["b", "c"], { d: true, e: false })`:
      its words are the string, then the array items, then the truthy keys in
      entry order, whenever none of them holds a space. */
  lemma ArrayAndObjectWords(a: string, items: seq<string>, entries: seq<(string, bool)>)
    requires ' ' !in a
    requires |items| >= 1 && forall i :: 0 <= i < |items| ==> ' ' !in items[i]
    requires |TruthyKeys(entries)| >= 1
    requires forall i :: 0 <= i < |entries| ==> ' ' !in entries[i].0
    ensures Split(Cn([StringValue(a), ArrayValue(items), ObjectValue(entries)]), ' ')
         == [a] + items + TruthyKeys(entries)
  {
    var inputs := [StringValue(a), ArrayValue(items), ObjectValue(entries)];
    var p1 := Piece(ArrayValue(items));
    var p2 := Piece(ObjectValue(entries));
    assert Pieces(inputs) == [a, p1, p2];
    TruthyKeysFree(entries, ' ');
    SplitFree(a, ' ');
    SplitAllFree(items, ' ');
    SplitAllFree(TruthyKeys(entries), ' ');
    SplitAllThree(a, p1, p2, ' ');
  }

  /** Splitting the result on spaces recovers the per-input pieces, provided
      none of them contains a space itself. */
  lemma CnPieces(inputs: seq<ClassValue>)
    requires |inputs| >= 1
    requires forall i :: 0 <= i < |inputs| ==> ' ' !in Piece(inputs[i])
    ensures Split(Cn(inputs), ' ') == Pieces(inputs)
  {
    SplitJoin(Pieces(inputs), ' ');
  }

  /** The empty-piece inputs: `undefined`, `null`, `false` and `""` (and an
      empty array or an object with no truthy entry) contribute nothing, yet
      the separator stays: `cn("a", false)` is `"a "`. */
  lemma FalsyKeepsSeparator(a: string)
    ensures Piece(Undefined) == "" && Piece(NullValue) == "" && Piece(BoolValue(false)) == "" && Piece(StringValue("")) == ""
    ensures Cn([StringValue(a), BoolValue(false)]) == a + " "
    ensures Cn([NullValue, StringValue(a)]) == " " + a
  {
    assert Pieces([StringValue(a), BoolValue(false)]) == [a, ""];
    assert Pieces([NullValue, StringValue(a)]) == ["", a];
  }
}
