/** Reading the last lines of a journal from the end of the file in doubling chunks. */
module JournalTail {
  import opened Wrappers

  type Byte = b: nat | b < 256

  const NEWLINE: Byte := 10

  /** The pieces of a file that has one more byte in front. */
  function Prepend(b: Byte, pieces: seq<seq<Byte>>): (more: seq<seq<Byte>>)
    requires pieces != []
    ensures more != []
  {
    if b == NEWLINE then [[]] + pieces else [[b] + pieces[0]] + pieces[1..]
  }

  /** The pieces between newlines; there is always at least one, possibly empty. */
  function Split(s: seq<Byte>): (pieces: seq<seq<Byte>>)
    ensures pieces != []
  {
    if s == [] then [[]] else Prepend(s[0], Split(s[1..]))
  }

  /** Where the first newline is, or the length if there is none. */
  function FirstNewline(s: seq<Byte>): (i: nat)
    ensures i <= |s|
    ensures i < |s| ==> s[i] == NEWLINE
    ensures forall j | 0 <= j < i :: s[j] != NEWLINE
  {
    if s == [] || s[0] == NEWLINE then 0 else 1 + FirstNewline(s[1..])
  }

  /** What follows the first newline, or everything if there is none. */
  function AfterFirstNewline(s: seq<Byte>): seq<Byte> {
    if FirstNewline(s) == |s| then s else s[FirstNewline(s) + 1..]
  }

  predicate IsSpace(b: Byte) {
    9 <= b <= 13 || b == 32
  }

  function StripLeft(s: seq<Byte>): seq<Byte> {
    if s != [] && IsSpace(s[0]) then StripLeft(s[1..]) else s
  }

  function StripRight(s: seq<Byte>): seq<Byte> {
    if s != [] && IsSpace(s[|s| - 1]) then StripRight(s[..|s| - 1]) else s
  }

  function Strip(s: seq<Byte>): seq<Byte> {
    StripRight(StripLeft(s))
  }

  const SPACES: seq<Byte> := [9, 10, 11, 12, 13, 32]

  lemma {:induction false} StripLeftCuts(s: seq<Byte>) returns (k: nat)
    ensures k <= |s| && StripLeft(s) == s[k..] && forall i | 0 <= i < k :: s[i] in SPACES
    ensures StripLeft(s) != [] ==> StripLeft(s)[0] !in SPACES
  {
    if s != [] && IsSpace(s[0]) {
      k := StripLeftCuts(s[1..]);
      k := k + 1;
    } else {
      k := 0;
    }
  }

  lemma {:induction false} StripRightCuts(s: seq<Byte>) returns (k: nat)
    ensures k <= |s| && StripRight(s) == s[..k] && forall i | k <= i < |s| :: s[i] in SPACES
    ensures StripRight(s) != [] ==> StripRight(s)[k - 1] !in SPACES
  {
    if s != [] && IsSpace(s[|s| - 1]) {
      k := StripRightCuts(s[..|s| - 1]);
    } else {
      k := |s|;
    }
  }

  /** Stripping takes white space off both ends, and all of it: tab, line feed, vertical tab, form
      feed, carriage return and blank. */
  lemma StripMeaning(s: seq<Byte>) returns (low: nat, high: nat)
    ensures low <= high <= |s| && Strip(s) == s[low..high]
    ensures forall i | 0 <= i < |s| && !(low <= i < high) :: s[i] in SPACES
    ensures Strip(s) != [] ==> s[low] !in SPACES && s[high - 1] !in SPACES
  {
    low := StripLeftCuts(s);
    var k := StripRightCuts(s[low..]);
    high := low + k;
  }

  /** Python's `pieces[-n:]`: for `n == 0` it is the whole list, and for a negative `n` it drops
      the first `-n` pieces. */
  function LastPieces<T>(pieces: seq<T>, n: int): seq<T> {
    if n <= 0 then pieces[Min(-n, |pieces|)..]
    else if |pieces| <= n then pieces
    else pieces[|pieces| - n..]
  }

  /** The entry of a piece is what `loads` makes of it without the white space at its ends; a blank
      piece has none. */
  lemma EntryMeaning<J>(piece: seq<Byte>, loads: seq<Byte> -> Option<J>) returns (low: nat, high: nat)
    ensures low <= high <= |piece| && forall i | 0 <= i < |piece| && !(low <= i < high) :: piece[i] in SPACES
    ensures low < high ==> piece[low] !in SPACES && piece[high - 1] !in SPACES
    ensures Parser(loads)(piece) == if low < high then loads(piece[low..high]) else None
  {
    low, high := StripMeaning(piece);
  }

  /** What is left is the rest of the file after the first newline, or all of it if there is none. */
  lemma AfterFirstNewlineMeaning(s: seq<Byte>) returns (head: seq<Byte>)
    ensures NEWLINE !in s ==> AfterFirstNewline(s) == s
    ensures NEWLINE in s ==> NEWLINE !in head && s == head + [NEWLINE] + AfterFirstNewline(s)
  {
    head := s[..FirstNewline(s)];
  }

  /** Parses one piece by `loads`, which is given the stripped line; a blank piece has no entry. */
  function Parser<J>(loads: seq<Byte> -> Option<J>): seq<Byte> -> Option<J> {
    (piece: seq<Byte>) => if Strip(piece) == [] then None else loads(Strip(piece))
  }

  /** The entries of the pieces that parse, in order; the others are skipped. */
  function Entries<T, J>(pieces: seq<T>, parse: T -> Option<J>): seq<J> {
    if pieces == [] then []
    else
      var entry := parse(pieces[|pieces| - 1]);
      Entries(pieces[..|pieces| - 1], parse) + if entry.Some? then [entry.value] else []
  }

  function FirstChunk(size: nat, n: int): nat {
    Min(size, if n * 1024 < 65536 then 65536 else n * 1024)
  }

  /** The whole lines in the last `chunk` bytes. */
  function Blob(file: seq<Byte>, chunk: nat): seq<Byte>
    requires chunk <= |file|
  {
    if chunk == |file| then file else AfterFirstNewline(file[|file| - chunk..])
  }

  /** The pieces that a request for `n` lines selects from: those of the whole file for a positive
      `n`, and otherwise those of the first chunk. */
  function Source(file: seq<Byte>, n: int): seq<seq<Byte>> {
    Split(if n >= 1 then file else Blob(file, FirstChunk(|file|, n)))
  }

  function Tail<J>(file: seq<Byte>, n: int, loads: seq<Byte> -> Option<J>): seq<J> {
    Entries(LastPieces(Source(file, n), n), Parser(loads))
  }

  /** `None` stands for a file that cannot be read. */
  method ReadJournalTail<J>(file: Option<seq<Byte>>, n: int, loads: seq<Byte> -> Option<J>) returns (out: seq<J>)
    ensures out == if file.Some? then Tail(file.value, n, loads) else []
  {
    if file.None? {
      return [];
    }
    var bytes := file.value;
    var size := |bytes|;
    if size == 0 {
      EmptyFile(loads, n);
      return [];
    }
    var chunk := FirstChunk(size, n);
    var lines;
    while true
      invariant 0 < chunk <= size
      invariant n <= 0 ==> chunk == FirstChunk(size, n)
      decreases size - chunk
    {
      var data := bytes[size - chunk..];
      var blob := if chunk >= size then data else AfterFirstNewline(data);
      lines := Split(blob);
      assert blob == Blob(bytes, chunk);
      if |lines| > n || chunk >= size {
        ChunkSuffices(bytes, chunk, n);
        break;
      }
      chunk := Min(size, chunk * 2);
    }
    out := ParseLines(LastPieces(lines, n), loads);
  }

  method ParseLines<J>(lines: seq<seq<Byte>>, loads: seq<Byte> -> Option<J>) returns (out: seq<J>)
    ensures out == Entries(lines, Parser(loads))
  {
    out := [];
    for i := 0 to |lines|
      invariant out == Entries(lines[..i], Parser(loads))
    {
      assert lines[..i + 1][..i] == lines[..i];
      assert lines[..i + 1][i] == lines[i];
      var raw := Strip(lines[i]);
      if raw == [] {
        continue;
      }
      var entry := loads(raw);
      if entry.Some? {
        out := out + [entry.value];
      }
    }
    assert lines[..|lines|] == lines;
  }

  lemma BlankPiece<J>(loads: seq<Byte> -> Option<J>)
    ensures Parser(loads)([]).None? && Entries([[]], Parser(loads)) == []
  {
    assert Strip([]) == [];
  }

  lemma EmptyFile<J>(loads: seq<Byte> -> Option<J>, n: int)
    ensures Tail([], n, loads) == []
  {
    assert Split([]) == [[]];
    BlankPiece(loads);
  }

  lemma PrependConcat(b: Byte, p: seq<seq<Byte>>, q: seq<seq<Byte>>)
    requires p != []
    ensures Prepend(b, p + q) == Prepend(b, p) + q
  {
    assert (p + q)[1..] == p[1..] + q;
  }

  /** Splitting at one newline splits the pieces there, wherever the newline lies. */
  lemma {:induction false} SplitAtNewline(a: seq<Byte>, b: seq<Byte>)
    ensures Split(a + [NEWLINE] + b) == Split(a) + Split(b)
  {
    if a == [] {
      assert a + [NEWLINE] + b == [NEWLINE] + b;
      assert ([NEWLINE] + b)[1..] == b;
    } else {
      assert (a + [NEWLINE] + b)[1..] == a[1..] + [NEWLINE] + b;
      SplitAtNewline(a[1..], b);
      PrependConcat(a[0], Split(a[1..]), Split(b));
    }
  }

  lemma {:induction false} NoNewlineIsOnePiece(s: seq<Byte>)
    requires FirstNewline(s) == |s|
    ensures Split(s) == [s]
  {
    if s != [] {
      NoNewlineIsOnePiece(s[1..]);
      assert [s[0]] + s[1..] == s;
    }
  }

  /** Cutting the file at the first newline of the chunk cuts its list of pieces. */
  lemma CutAtNewline(file: seq<Byte>, chunk: nat) returns (before: seq<seq<Byte>>)
    requires chunk < |file| && FirstNewline(file[|file| - chunk..]) < chunk
    ensures Split(file) == before + Split(Blob(file, chunk))
  {
    var data := file[|file| - chunk..];
    var i := FirstNewline(data);
    var head, blob := file[..|file| - chunk + i], data[i + 1..];
    assert file == head + [NEWLINE] + blob;
    SplitAtNewline(head, blob);
    before := Split(head);
  }

  lemma LastOfConcat<T>(a: seq<T>, b: seq<T>, n: nat)
    requires 1 <= n <= |b|
    ensures LastPieces(a + b, n) == LastPieces(b, n)
  {
  }

  /** Whatever the alignment of the chunk, once it holds more than `n` whole lines, or the whole
      file, its last `n` pieces are the last `n` pieces of the file. */
  lemma TailSuffices(file: seq<Byte>, chunk: nat, n: nat)
    requires 0 < chunk <= |file| && 1 <= n
    requires n < |Split(Blob(file, chunk))| || chunk == |file|
    ensures LastPieces(Split(Blob(file, chunk)), n) == LastPieces(Split(file), n)
  {
    if chunk < |file| {
      if FirstNewline(file[|file| - chunk..]) < chunk {
        var before := CutAtNewline(file, chunk);
        LastOfConcat(before, Split(Blob(file, chunk)), n);
      } else {
        NoNewlineIsOnePiece(file[|file| - chunk..]);
      }
    }
  }

  /** The reader may stop growing its chunk. */
  lemma ChunkSuffices(file: seq<Byte>, chunk: nat, n: int)
    requires 0 < chunk <= |file|
    requires n < |Split(Blob(file, chunk))| || chunk == |file|
    requires n <= 0 ==> chunk == FirstChunk(|file|, n)
    ensures LastPieces(Split(Blob(file, chunk)), n) == LastPieces(Source(file, n), n)
  {
    if n >= 1 {
      TailSuffices(file, chunk, n);
    }
  }

  lemma {:induction false} NewlinesEndPieces(s: seq<Byte>)
    ensures forall k | 0 <= k < |Split(s)| :: FirstNewline(Split(s)[k]) == |Split(s)[k]|
  {
    if s != [] {
      NewlinesEndPieces(s[1..]);
    }
  }

  function Joined(pieces: seq<seq<Byte>>): seq<Byte>
    requires pieces != []
  {
    if |pieces| == 1 then pieces[0] else pieces[0] + [NEWLINE] + Joined(pieces[1..])
  }

  /** Splitting loses nothing: the pieces joined by newlines are the file again, and no piece
      contains a newline. */
  lemma {:induction false} SplitRoundTrip(s: seq<Byte>)
    ensures Joined(Split(s)) == s
    ensures forall k | 0 <= k < |Split(s)| :: FirstNewline(Split(s)[k]) == |Split(s)[k]|
  {
    NewlinesEndPieces(s);
    if s != [] {
      var rest := Split(s[1..]);
      SplitRoundTrip(s[1..]);
      assert s == [s[0]] + s[1..];
      if s[0] == NEWLINE {
        assert ([[]] + rest)[1..] == rest;
      } else {
        assert ([[s[0]] + rest[0]] + rest[1..])[1..] == rest[1..];
      }
    }
  }

  // ------------------------------------------- the last parseable lines, exactly

  lemma {:induction false} EntriesConcat<T, J>(a: seq<T>, b: seq<T>, parse: T -> Option<J>)
    ensures Entries(a + b, parse) == Entries(a, parse) + Entries(b, parse)
  {
    if b == [] {
      assert a + b == a;
    } else {
      assert (a + b)[..|a + b| - 1] == a + b[..|b| - 1];
      EntriesConcat(a, b[..|b| - 1], parse);
    }
  }

  predicate AllParse<T, J>(pieces: seq<T>, parse: T -> Option<J>) {
    forall i | 0 <= i < |pieces| :: parse(pieces[i]).Some?
  }

  predicate NoneParse<T, J>(pieces: seq<T>, parse: T -> Option<J>) {
    forall i | 0 <= i < |pieces| :: parse(pieces[i]).None?
  }

  lemma {:induction false} EntriesAreCounted<T, J>(pieces: seq<T>, parse: T -> Option<J>)
    ensures |Entries(pieces, parse)| <= |pieces|
    ensures |Entries(pieces, parse)| == |pieces| <==> AllParse(pieces, parse)
    ensures Entries(pieces, parse) == [] <==> NoneParse(pieces, parse)
  {
    if pieces != [] {
      EntriesAreCounted(pieces[..|pieces| - 1], parse);
    }
  }

  /** The last `n` elements, or all of them if there are fewer. */
  function LastN<T>(s: seq<T>, n: nat): seq<T> {
    s[|s| - Min(n, |s|)..]
  }

  lemma SuffixIsLast<T>(a: seq<T>, b: seq<T>, n: nat)
    requires |b| <= n
    ensures LastN(a + b, n) == b <==> a == [] || |b| == n
  {
    if a == [] || |b| == n {
      assert (a + b)[|a|..] == b;
    } else {
      assert |LastN(a + b, n)| == Min(n, |a| + |b|) > |b|;
    }
  }

  lemma LastEntries<T, J>(pieces: seq<T>, k: nat, n: nat, parse: T -> Option<J>)
    requires k == |pieces| - Min(n, |pieces|)
    ensures Entries(pieces[k..], parse) == LastN(Entries(pieces, parse), n)
            <==> AllParse(pieces[k..], parse) || NoneParse(pieces[..k], parse)
    ensures AllParse(pieces[k..], parse) ==> |Entries(pieces[k..], parse)| == |pieces| - k
  {
    assert pieces[..k] + pieces[k..] == pieces;
    EntriesConcat(pieces[..k], pieces[k..], parse);
    EntriesAreCounted(pieces[..k], parse);
    EntriesAreCounted(pieces[k..], parse);
    SuffixIsLast(Entries(pieces[..k], parse), Entries(pieces[k..], parse), n);
  }

  /** The reader returns the last `n` parseable lines if and only if the last `n` pieces all parse
      or nothing before them does. */
  lemma LastEntriesExactly<J>(file: seq<Byte>, n: nat, loads: seq<Byte> -> Option<J>)
    requires 1 <= n
    ensures var p := Split(file);
            var k := |p| - Min(n, |p|);
            Tail(file, n, loads) == LastN(Entries(p, Parser(loads)), n)
            <==> AllParse(p[k..], Parser(loads)) || NoneParse(p[..k], Parser(loads))
  {
    var p := Split(file);
    var k := |p| - Min(n, |p|);
    assert LastPieces(p, n) == p[k..];
    LastEntries(p, k, n, Parser(loads));
  }

  /** Of no lines at all it returns every entry of the first chunk, which is every entry of a file
      of up to 64 KiB; so it returns nothing if and only if nothing there parses. */
  lemma ZeroAsksForEverything<J>(file: seq<Byte>, loads: seq<Byte> -> Option<J>)
    ensures Tail(file, 0, loads) == Entries(Source(file, 0), Parser(loads))
    ensures |file| <= 65536 ==> Source(file, 0) == Split(file)
    ensures 65536 < |file| ==> Source(file, 0) == Split(AfterFirstNewline(file[|file| - 65536..]))
    ensures Tail(file, 0, loads) == [] <==> NoneParse(Source(file, 0), Parser(loads))
  {
    assert LastPieces(Source(file, 0), 0) == Source(file, 0);
    EntriesAreCounted(Source(file, 0), Parser(loads));
  }

  /** A negative count drops that many pieces of the first chunk and returns the entries of the rest. */
  lemma NegativeDropsTheFirst<J>(file: seq<Byte>, n: int, loads: seq<Byte> -> Option<J>)
    requires n < 0
    ensures var p := Source(file, n);
            var k := if |p| < -n then |p| else -n;
            Tail(file, n, loads) == Entries(p[k..], Parser(loads))
  {
  }

  /** A final newline costs one line: the empty piece after it is one of the `n`, so a request for
      a single line returns nothing. */
  lemma FinalNewlineCostsALine<J>(a: seq<Byte>, n: nat, loads: seq<Byte> -> Option<J>)
    requires 1 <= n
    ensures Split(a + [NEWLINE]) == Split(a) + [[]]
    ensures Tail(a + [NEWLINE], n, loads) == if n == 1 then [] else Tail(a, n - 1, loads)
  {
    var p := Split(a);
    assert a + [NEWLINE] + [] == a + [NEWLINE] && Split([]) == [[]];
    SplitAtNewline(a, []);
    BlankPiece(loads);
    if n == 1 {
      assert LastPieces(p + [[]], 1) == [[]];
    } else {
      assert LastPieces(p + [[]], n) == LastPieces(p, n - 1) + [[]];
      EntriesConcat(LastPieces(p, n - 1), [[]], Parser(loads));
    }
  }

  /** A journal as the daemon writes it, each line ended by a newline. */
  function Terminated(lines: seq<seq<Byte>>): seq<Byte> {
    if lines == [] then [] else lines[0] + [NEWLINE] + Terminated(lines[1..])
  }

  lemma {:induction false} SplitTerminated(lines: seq<seq<Byte>>)
    requires forall i | 0 <= i < |lines| :: FirstNewline(lines[i]) == |lines[i]|
    ensures Split(Terminated(lines)) == lines + [[]]
  {
    if lines == [] {
    } else {
      SplitTerminated(lines[1..]);
      SplitAtNewline(lines[0], Terminated(lines[1..]));
      NoNewlineIsOnePiece(lines[0]);
      assert [lines[0]] + (lines[1..] + [[]]) == lines + [[]];
    }
  }

  lemma LastBeforeBlank<T, J>(lines: seq<T>, blank: T, n: nat, parse: T -> Option<J>)
    requires 1 <= n <= |lines| && parse(blank).None? && AllParse(lines, parse)
    ensures Entries(LastPieces(lines + [blank], n), parse) == LastN(Entries(lines, parse), n - 1)
    ensures |LastN(Entries(lines, parse), n - 1)| == n - 1
  {
    var k := |lines| - (n - 1);
    assert LastPieces(lines + [blank], n) == lines[k..] + [blank];
    assert (lines[k..] + [blank])[..n - 1] == lines[k..];
    LastEntries(lines, k, n - 1, parse);
  }

  /** So of a well-formed journal, all lines parseable and each ended by a newline, a request for
      the last `n` lines returns the last `n - 1`. */
  lemma WellFormedJournal<J>(lines: seq<seq<Byte>>, n: nat, loads: seq<Byte> -> Option<J>)
    requires forall i | 0 <= i < |lines| :: FirstNewline(lines[i]) == |lines[i]|
    requires AllParse(lines, Parser(loads)) && 1 <= n <= |lines|
    ensures Tail(Terminated(lines), n, loads) == LastN(Entries(lines, Parser(loads)), n - 1)
    ensures |Tail(Terminated(lines), n, loads)| == n - 1
  {
    SplitTerminated(lines);
    BlankPiece(loads);
    LastBeforeBlank(lines, [], n, Parser(loads));
  }
}
