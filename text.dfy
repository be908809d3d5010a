/** Text handling shared by the file watcher and the bulk loader: JavaScript's
    `String.prototype.split('\n')` and the blank-line filter that the watcher
    applies to the fields it gets back. */
module Text {

  const Newline: char := '\n'

  /** The fields of `s` between newlines, as `s.split('\n')` returns them:
      always at least one field, empty fields kept (so a trailing newline
      yields a final `""`). */
  function Split(s: string): (r: seq<string>)
    ensures |r| >= 1
  {
    SplitFrom(s, [])
  }

  /** Split, scanning `s` with `field` holding the field read so far. */
  function SplitFrom(s: string, field: string): (r: seq<string>)
    ensures |r| >= 1
    decreases |s|
  {
    if s == [] then [field]
    else if s[0] == Newline then [field] + SplitFrom(s[1..], [])
    else SplitFrom(s[1..], field + [s[0]])
  }

  /** `parts.join('\n')`: the inverse of Split. */
  function Join(parts: seq<string>): string
  {
    if |parts| == 0 then []
    else if |parts| == 1 then parts[0]
    else parts[0] + [Newline] + Join(parts[1..])
  }

  /** Number of occurrences of `c` in `s`. */
  function CountOf(s: string, c: char): nat
  {
    if s == [] then 0 else (if s[0] == c then 1 else 0) + CountOf(s[1..], c)
  }

  /** The fields that are not the empty string, in their original order
      (the `if(line == "") return;` filter of the watcher). */
  function NonBlank(parts: seq<string>): (r: seq<string>)
    ensures |r| <= |parts|
    ensures forall i :: 0 <= i < |r| ==> r[i] != []
    ensures forall x :: x in r <==> x in parts && x != []
  {
    if parts == [] then []
    else (if parts[0] == [] then [] else [parts[0]]) + NonBlank(parts[1..])
  }

  /** The lines the file watcher forwards for a region of text. */
  function Lines(text: string): seq<string>
  {
    NonBlank(Split(text))
  }

  /** Every field Split returns is free of newlines. */
  lemma {:induction false} SplitFieldsHaveNoNewline(s: string, field: string)
    requires Newline !in field
    ensures forall i :: 0 <= i < |SplitFrom(s, field)| ==> Newline !in SplitFrom(s, field)[i]
    decreases |s|
  {
    if s != [] {
      if s[0] == Newline {
        SplitFieldsHaveNoNewline(s[1..], []);
      } else {
        SplitFieldsHaveNoNewline(s[1..], field + [s[0]]);
      }
    }
  }

  /** There is one more field than there are newlines. */
  lemma {:induction false} SplitLength(s: string, field: string)
    ensures |SplitFrom(s, field)| == CountOf(s, Newline) + 1
    decreases |s|
  {
    if s != [] {
      SplitLength(s[1..], if s[0] == Newline then [] else field + [s[0]]);
    }
  }

  /** Joining the fields back with newlines gives the original text. */
  lemma {:induction false} JoinSplit(s: string, field: string)
    ensures Join(SplitFrom(s, field)) == field + s
    decreases |s|
  {
    if s == [] {
      assert field + s == field;
    } else if s[0] == Newline {
      JoinSplit(s[1..], []);
      var rest := SplitFrom(s[1..], []);
      assert ([field] + rest)[1..] == rest;
      assert field + s == field + [Newline] + s[1..];
    } else {
      JoinSplit(s[1..], field + [s[0]]);
      assert field + s == field + [s[0]] + s[1..];
    }
  }

  /** A newline separates the fields before it from those after it. */
  lemma {:induction false} SplitAroundNewline(a: string, b: string, field: string)
    ensures SplitFrom(a + [Newline] + b, field) == SplitFrom(a, field) + Split(b)
    decreases |a|
  {
    var t := a + [Newline] + b;
    if a == [] {
      assert t[0] == Newline && t[1..] == b;
    } else {
      assert t[0] == a[0] && t[1..] == a[1..] + [Newline] + b;
      if a[0] == Newline {
        SplitAroundNewline(a[1..], b, []);
      } else {
        SplitAroundNewline(a[1..], b, field + [a[0]]);
      }
    }
  }

  /** Text without a newline ends the current field. */
  lemma {:induction false} SplitOfOneField(p: string, field: string)
    requires Newline !in p
    ensures SplitFrom(p, field) == [field + p]
    decreases |p|
  {
    if p == [] {
      assert field + p == field;
    } else {
      assert p[0] in p;
      assert Newline !in p[1..] by {
        forall i | 0 <= i < |p[1..]| ensures p[1..][i] != Newline {
          assert p[1..][i] == p[i + 1];
        }
      }
      SplitOfOneField(p[1..], field + [p[0]]);
      assert field + [p[0]] + p[1..] == field + p;
    }
  }

  /** Splitting newline-free fields joined with newlines gives the fields back. */
  lemma {:induction false} SplitJoin(parts: seq<string>)
    requires |parts| >= 1
    requires forall i :: 0 <= i < |parts| ==> Newline !in parts[i]
    ensures Split(Join(parts)) == parts
    decreases |parts|
  {
    SplitOfOneField(parts[0], []);
    assert [] + parts[0] == parts[0];
    if |parts| > 1 {
      SplitJoin(parts[1..]);
      SplitAroundNewline(parts[0], Join(parts[1..]), []);
      assert [parts[0]] + parts[1..] == parts;
    }
  }

  /** The blank filter distributes over concatenation. */
  lemma {:induction false} NonBlankAppend(a: seq<string>, b: seq<string>)
    ensures NonBlank(a + b) == NonBlank(a) + NonBlank(b)
    decreases |a|
  {
    if a == [] {
      assert a + b == b;
    } else {
      assert (a + b)[0] == a[0];
      assert (a + b)[1..] == a[1..] + b;
      NonBlankAppend(a[1..], b);
    }
  }

  /** A sequence without blank fields passes the filter unchanged. */
  lemma {:induction false} NonBlankKeepsFilled(parts: seq<string>)
    requires forall i :: 0 <= i < |parts| ==> parts[i] != []
    ensures NonBlank(parts) == parts
    decreases |parts|
  {
    if parts != [] {
      NonBlankKeepsFilled(parts[1..]);
      assert [parts[0]] + parts[1..] == parts;
    }
  }

  /** No forwarded line is empty or contains a newline. */
  lemma LinesWellFormed(text: string)
    ensures forall i :: 0 <= i < |Lines(text)| ==> Lines(text)[i] != [] && Newline !in Lines(text)[i]
  {
    SplitFieldsHaveNoNewline(text, []);
    var r := Lines(text);
    forall i | 0 <= i < |r| ensures Newline !in r[i] {
      assert r[i] in Split(text);
    }
  }

  /** Text that is cut just after a newline forwards the lines of its two
      pieces one after the other. */
  lemma LinesOfConcat(a: string, b: string)
    ensures Lines(a + [Newline] + b) == Lines(a) + Lines(b)
  {
    SplitAroundNewline(a, b, []);
    NonBlankAppend(Split(a), Split(b));
  }

  /** Records that are non-empty and newline-free, each written with a
      terminating newline, are forwarded exactly. */
  lemma LinesOfRecords(records: seq<string>)
    requires forall i :: 0 <= i < |records| ==> records[i] != [] && Newline !in records[i]
    ensures Lines(Join(records) + [Newline]) == records
  {
    var text := Join(records);
    assert text + [Newline] == text + [Newline] + [];
    SplitAroundNewline(text, [], []);
    var empty: seq<string> := [[]];
    assert Split([]) == empty;
    assert NonBlank(empty) == [];
    if records == [] {
      assert Split(text) == empty;
      assert Split(text + [Newline]) == empty + empty;
    } else {
      SplitJoin(records);
      assert Split(text + [Newline]) == records + empty;
      NonBlankAppend(records, empty);
      NonBlankKeepsFilled(records);
      assert records + [] == records;
    }
  }

  /** A line that is still being written when the watcher looks is forwarded
      as two fragments rather than as the one record the file ends up with. */
  lemma PartialLineIsForwardedInPieces()
    ensures Lines("ab") + Lines("c\n") == ["ab", "c"]
    ensures Lines("abc\n") == ["abc"]
  {
    var empty: seq<string> := [[]];
    assert Split("") == empty;
    SplitOfOneField("ab", []);
    assert [] + "ab" == "ab";
    assert NonBlank(["ab"]) == ["ab"];
    SplitOfOneField("c", []);
    assert [] + "c" == "c";
    SplitAroundNewline("c", "", []);
    assert "c" + [Newline] + "" == "c\n";
    assert Split("c\n") == ["c"] + empty;
    assert NonBlank(["c", ""]) == ["c"];
    SplitOfOneField("abc", []);
    assert [] + "abc" == "abc";
    SplitAroundNewline("abc", "", []);
    assert "abc" + [Newline] + "" == "abc\n";
    assert Split("abc\n") == ["abc"] + empty;
    assert NonBlank(["abc", ""]) == ["abc"];
  }
}
