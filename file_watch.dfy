/** The arithmetic of the file-change callback: which byte range of the
    watched file is read after a change, what the read buffer then holds, and
    which lines that region contributes. */
module FileWatch {
  import opened Text

  /** A read of `size` bytes starting at byte offset `from`. */
  datatype ReadRange = ReadRange(from: nat, size: nat)

  /** The character a freshly allocated (zero-filled) read buffer holds where
      nothing was read into it. */
  const Zero: char := '\0'

  /** The range read when the watcher reports a change from `prevSize` to
      `currSize` bytes: the whole file when it shrank, the appended bytes
      otherwise. */
  function RangeToRead(prevSize: nat, currSize: nat): (r: ReadRange)
    ensures r.from + r.size == currSize
    ensures currSize < prevSize ==> r == ReadRange(0, currSize)
    ensures prevSize <= currSize ==> r == ReadRange(prevSize, currSize - prevSize)
  {
    if currSize - prevSize < 0 then ReadRange(0, currSize)
    else ReadRange(prevSize, currSize - prevSize)
  }

  function Min(a: int, b: int): int { if a < b then a else b }

  /** The text of a buffer of `r.size` zero bytes after reading `content` at
      offset `r.from` into it: what the file holds there, padded with zero
      bytes where the file is shorter than the range. */
  function Region(content: string, r: ReadRange): (region: string)
    ensures |region| == r.size
    ensures r.from + r.size <= |content| ==> region == content[r.from .. r.from + r.size]
  {
    var avail := if r.from >= |content| then [] else content[r.from .. Min(|content|, r.from + r.size)];
    avail + seq(r.size - |avail|, _ => Zero)
  }

  /** The lines one change event appends to the buffer. */
  function NewLines(prevSize: nat, currSize: nat, content: string): seq<string>
  {
    Lines(Region(content, RangeToRead(prevSize, currSize)))
  }

  /** When the file only grew, the region read is exactly what was appended. */
  lemma GrowthReadsAppended(before: string, after: string)
    requires before <= after
    ensures before + Region(after, RangeToRead(|before|, |after|)) == after
  {
    var region := Region(after, RangeToRead(|before|, |after|));
    assert region == after[|before|..];
    assert after == after[..|before|] + after[|before|..];
  }

  /** When the file shrank, the whole current file is read again. */
  lemma TruncationRereadsAll(before: string, after: string)
    requires |after| < |before|
    ensures Region(after, RangeToRead(|before|, |after|)) == after
  {
    assert after[0..|after|] == after;
  }

  /** The file is empty or its last character is a newline. */
  predicate AtLineBoundary(s: string)
  {
    s == [] || s[|s| - 1] == Newline
  }

  /** Appending to a file that ends at a line boundary forwards exactly the
      new records: what was forwarded for the old file, followed by this
      event's lines, is what the grown file holds. */
  lemma AppendForwardsNewRecords(before: string, after: string)
    requires before <= after && AtLineBoundary(before)
    ensures Lines(before) + NewLines(|before|, |after|, after) == Lines(after)
  {
    GrowthReadsAppended(before, after);
    var added := Region(after, RangeToRead(|before|, |after|));
    assert Lines([]) == [] by { assert Split([]) == [[]]; }
    if before == [] {
      assert after == added;
    } else {
      var head := before[..|before| - 1];
      assert before == head + [Newline] + [];
      LinesOfConcat(head, []);
      assert after == head + [Newline] + added;
      LinesOfConcat(head, added);
    }
  }

  /** Successive sizes of an append-only file: each snapshot extends the last. */
  predicate AppendOnly(snaps: seq<string>)
  {
    forall i :: 0 <= i < |snaps| - 1 ==> snaps[i] <= snaps[i + 1]
  }

  /** Everything the watcher forwards while the file passes through `snaps`,
      one change event between each pair of consecutive snapshots. */
  function Forwarded(snaps: seq<string>): seq<string>
    decreases |snaps|
  {
    if |snaps| < 2 then []
    else
      var n := |snaps|;
      Forwarded(snaps[..n - 1]) + NewLines(|snaps[n - 2]|, |snaps[n - 1]|, snaps[n - 1])
  }

  /** A file tailed from empty, observed at line boundaries until the last
      observation, has all of its non-empty records forwarded, in order, each
      once; the last observation may end in the middle of a line. */
  lemma {:induction false} TailingForwardsEveryRecord(snaps: seq<string>)
    requires |snaps| >= 1 && snaps[0] == []
    requires AppendOnly(snaps)
    requires forall i :: 0 <= i < |snaps| - 1 ==> AtLineBoundary(snaps[i])
    ensures Forwarded(snaps) == Lines(snaps[|snaps| - 1])
    decreases |snaps|
  {
    var n := |snaps|;
    if n == 1 {
      assert Split([]) == [[]];
    } else {
      var init := snaps[..n - 1];
      assert AppendOnly(init) by {
        forall i | 0 <= i < |init| - 1 ensures init[i] <= init[i + 1] {
          assert init[i] == snaps[i] && init[i + 1] == snaps[i + 1];
        }
      }
      assert forall i :: 0 <= i < |init| ==> init[i] == snaps[i];
      TailingForwardsEveryRecord(init);
      assert snaps[n - 2] <= snaps[n - 1];
      AppendForwardsNewRecords(snaps[n - 2], snaps[n - 1]);
    }
  }
}
