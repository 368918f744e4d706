/** The log file of buffer.go and its rotation. A file is the sequence of lines written to it. */
module LogFiles {
  import opened Model
  import opened Sets

  type Line = string

  // job-<date>-<seq>.log
  datatype Name = Name(date: string, number: nat)

  function Size(c: seq<Line>): nat {
    if c == [] then 0 else Size(c[..|c| - 1]) + |c[|c| - 1]|
  }

  lemma {:induction false} SizeOfJoined(a: seq<Line>, b: seq<Line>)
    ensures Size(a + b) == Size(a) + Size(b)
    decreases |b|
  {
    if b == [] {
      assert a + b == a;
    } else {
      assert (a + b)[..|a + b| - 1] == a + b[..|b| - 1];
      SizeOfJoined(a, b[..|b| - 1]);
    }
  }

  lemma SizeOfLine(line: Line)
    ensures Size([line]) == |line|
  {
    assert [line][..0] == [];
  }

  // How the system calls made for one line end. partial is what a failed write leaves in the file.
  datatype Io = Io(rename: bool, open: bool, write: bool, partial: nat)

  predicate Clean(io: Io) { io.rename && io.open && io.write }

  // The names taken on a date.
  function Taken(rotated: map<Name, seq<Line>>, date: string): set<Name> {
    set n | n in rotated && n.date == date
  }

  // A line whose write failed left a part of it, or nothing.
  predicate Torn(before: seq<Line>, line: Line, partial: nat, after: seq<Line>) {
    after == before || (partial < |line| && after == before + [line[..partial]])
  }

  // A batch ended at line k: the lines before it are all there, and those after it are not.
  predicate StoppedAt(before: seq<Line>, lines: seq<Option<Line>>, ios: seq<Io>, k: nat, after: seq<Line>)
    requires |ios| == |lines| && k < |lines|
  {
    lines[k].Some? && Torn(before + Present(lines[..k]), lines[k].value, ios[k].partial, after)
  }

  // The unused name with the lowest number.
  predicate IsFirstFree(rotated: map<Name, seq<Line>>, date: string, n: Name) {
    && n.date == date && n.number >= 1 && n !in rotated
    && forall s :: 1 <= s < n.number ==> Name(date, s) in rotated
  }

  // The lines of these files, in this order.
  function Spell(order: seq<Name>, rotated: map<Name, seq<Line>>): seq<Line>
    requires forall n :: n in order ==> n in rotated
  {
    if order == [] then []
    else Spell(order[..|order| - 1], rotated) + rotated[order[|order| - 1]]
  }

  lemma {:induction false} SpellIgnoresNewFile(order: seq<Name>, rotated: map<Name, seq<Line>>, n: Name, c: seq<Line>)
    requires (forall m :: m in order ==> m in rotated) && n !in rotated
    ensures Spell(order, rotated[n := c]) == Spell(order, rotated)
    decreases |order|
  {
    if order != [] {
      SpellIgnoresNewFile(order[..|order| - 1], rotated, n, c);
    }
  }

  class LogFile {
    const maxSizeBytes: int
    var rotated: map<Name, seq<Line>>
    var current: Option<seq<Line>>  // job.log, while it exists
    var isOpen: bool                // the handle is good for writing
    var currentSize: int
    ghost var order: seq<Name>      // the rotated files, oldest first

    // Each rotated file is in order once, and an open handle is one of an existing job.log.
    ghost predicate Ordered()
      reads this
    {
      && (isOpen ==> current.Some?)
      && (forall n :: n in order <==> n in rotated)
      && forall i, k :: 0 <= i < k < |order| ==> order[i] != order[k]
    }

    predicate Fits(c: seq<Line>) { Size(c) <= maxSizeBytes || |c| <= 1 }

    // What holds between batches as long as no system call fails.
    ghost predicate Sound()
      reads this
    {
      && isOpen && current.Some? && currentSize == Size(current.value)
      && Fits(current.value) && forall n :: n in rotated ==> Fits(rotated[n])
    }

    // Everything written so far, in order.
    ghost function History(): seq<Line>
      reads this
      requires Ordered()
    {
      Spell(order, rotated) + if current.Some? then current.value else []
    }

    // Opened on what an earlier run left in job.log, next to its rotated files.
    constructor (maxSizeBytes: int, found: seq<Line>, earlier: map<Name, seq<Line>>, ghost age: seq<Name>)
      requires forall n :: n in age <==> n in earlier
      requires forall i, k :: 0 <= i < k < |age| ==> age[i] != age[k]
      ensures Ordered() && rotated == earlier && current == Some(found) && this.maxSizeBytes == maxSizeBytes
      ensures Fits(found) && (forall n :: n in earlier ==> Fits(earlier[n])) ==> Sound()
    {
      this.maxSizeBytes := maxSizeBytes;
      rotated, current, isOpen, currentSize, order := earlier, Some(found), true, Size(found), age;
    }

    // The search for an unused name ends by the number of files of that date, plus one.
    method FirstFree(date: string) returns (seqNo: nat)
      ensures IsFirstFree(rotated, date, Name(date, seqNo))
      ensures seqNo <= |Taken(rotated, date)| + 1
    {
      seqNo := 1;
      ghost var passed: set<Name> := {};
      while Name(date, seqNo) in rotated
        invariant seqNo >= 1 && forall s :: 1 <= s < seqNo ==> Name(date, s) in rotated
        invariant |passed| == seqNo - 1 <= |Taken(rotated, date)|
        invariant forall n :: n in passed ==> n in Taken(rotated, date) && n.number < seqNo
        decreases |Taken(rotated, date)| + 1 - seqNo
      {
        passed := passed + {Name(date, seqNo)};
        SubsetCount(passed, Taken(rotated, date));
        seqNo := seqNo + 1;
      }
    }

    // openCurrentFileLocked
    method OpenCurrent(openOk: bool) returns (ok: bool)
      modifies `current, `isOpen, `currentSize
      ensures ok == openOk
      ensures ok ==> isOpen && current == Some(if old(current).Some? then old(current.value) else [])
      ensures ok ==> currentSize == Size(current.value)
      ensures !ok ==> current == old(current) && isOpen == old(isOpen) && currentSize == old(currentSize)
    {
      if !openOk {
        return false;
      }
      if current.None? {
        current := Some([]);
      }
      isOpen := true;
      currentSize := Size(current.value);
      return true;
    }

    // rotateFileLocked. Renaming fails in particular when an earlier failure left no job.log.
    method Rotate(date: string, io: Io) returns (ok: bool)
      requires Ordered()
      modifies this
      ensures Ordered() && ok == io.open
      ensures forall n :: n in old(rotated) ==> n in rotated && rotated[n] == old(rotated[n])
      ensures History() == old(History())
      ensures ok ==> isOpen && current.Some? && currentSize == Size(current.value)
      ensures ok && io.rename ==> current == Some([])
      ensures !io.rename || old(current).None? ==> rotated == old(rotated)
      ensures forall n :: n in rotated && n !in old(rotated) ==>
        IsFirstFree(old(rotated), date, n) && old(current) == Some(rotated[n])
    {
      isOpen := false;
      var seqNo := FirstFree(date);
      if io.rename && current.Some? {
        var name := Name(date, seqNo);
        SpellIgnoresNewFile(order, rotated, name, current.value);
        ghost var extended := order + [name];
        assert extended[..|extended| - 1] == order;
        rotated := rotated[name := current.value];
        order := extended;
        current := None;
      }
      ok := OpenCurrent(io.open);
    }

    // One line of writeBatch.
    method WriteLine(line: Line, date: string, io: Io) returns (ok: bool)
      requires Ordered()
      modifies this
      ensures Ordered()
      ensures forall n :: n in old(rotated) ==> n in rotated && rotated[n] == old(rotated[n])
      ensures ok ==> History() == old(History()) + [line]
      ensures !ok ==> Torn(old(History()), line, io.partial, History())
      ensures old(currentSize) + |line| <= maxSizeBytes ==> rotated == old(rotated)
      ensures old(currentSize) + |line| <= maxSizeBytes ==> currentSize == old(currentSize) + if ok then |line| else 0
      ensures old(currentSize) + |line| > maxSizeBytes && ok && io.rename ==> current == Some([line])
      ensures old(Sound()) && Clean(io) ==> ok && Sound()
    {
      if currentSize + |line| > maxSizeBytes {
        var rotatedOk := Rotate(date, io);
        if !rotatedOk {
          return false;
        }
      }
      if current.Some? {
        SizeOfJoined(current.value, [line]);
        SizeOfLine(line);
      }
      ok := Write(line, io);
    }

    // currentFile.Write
    method Write(line: Line, io: Io) returns (ok: bool)
      requires Ordered()
      modifies `current, `currentSize
      ensures Ordered() && ok == (isOpen && io.write)
      ensures ok ==> History() == old(History()) + [line] && current == Some(old(current).value + [line])
      ensures !ok ==> Torn(old(History()), line, io.partial, History())
      ensures currentSize == old(currentSize) + if ok then |line| else 0
    {
      if !isOpen || !io.write {
        if isOpen && io.partial < |line| {
          ghost var whole := current.value;
          current := Some(current.value + [line[..io.partial]]);
          assert History() == (Spell(order, rotated) + whole) + [line[..io.partial]];
        }
        return false;
      }
      ghost var before := current.value;
      current := Some(current.value + [line]);
      assert History() == (Spell(order, rotated) + before) + [line];
      currentSize := currentSize + |line|;
      return true;
    }

    // writeBatch on the marshalled entries, an entry that could not be marshalled being skipped.
    method WriteBatch(lines: seq<Option<Line>>, dates: seq<string>, ios: seq<Io>) returns (ok: bool)
      requires |dates| == |lines| == |ios| && Ordered()
      modifies this
      ensures Ordered()
      ensures forall n :: n in old(rotated) ==> n in rotated && rotated[n] == old(rotated[n])
      ensures ok ==> History() == old(History()) + Present(lines)
      ensures !ok ==> exists k :: 0 <= k < |lines| && StoppedAt(old(History()), lines, ios, k, History())
      ensures old(Sound()) && (forall io :: io in ios ==> Clean(io)) ==> ok && Sound()
    {
      for k := 0 to |lines|
        invariant Ordered()
        invariant forall n :: n in old(rotated) ==> n in rotated && rotated[n] == old(rotated[n])
        invariant History() == old(History()) + Present(lines[..k])
        invariant old(Sound()) && (forall io :: io in ios ==> Clean(io)) ==> Sound()
      {
        PresentOneMore(lines, k);
        if lines[k].Some? {
          var written := WriteLine(lines[k].value, dates[k], ios[k]);
          if !written {
            assert ios[k] in ios;
            assert StoppedAt(old(History()), lines, ios, k, History());
            return false;
          }
        }
      }
      assert lines[..|lines|] == lines;
      return true;
    }
  }

  lemma PresentOneMore(lines: seq<Option<Line>>, k: nat)
    requires k < |lines|
    ensures Present(lines[..k + 1]) == Present(lines[..k]) + if lines[k].Some? then [lines[k].value] else []
  {
    assert lines[..k + 1][..k] == lines[..k];
  }

  function Present(lines: seq<Option<Line>>): seq<Line> {
    if lines == [] then []
    else
      var last := lines[|lines| - 1];
      Present(lines[..|lines| - 1]) + if last.Some? then [last.value] else []
  }
}
