/**
 * Staging files into a shell script (`builders/uv_venv.py`), read back by the here-document rules of section 2.7.4 of
 * POSIX.1-2017 Shell Command Language.
 */
module Heredoc {
  import opened Prelude
  import Text

  // ---- Python's view of lines ----

  /** The characters `str.splitlines` breaks at. */
  predicate IsBreak(c: char) {
    c as int in {10, 11, 12, 13, 28, 29, 30, 133, 8232, 8233}
  }

  /** The characters `str.strip` removes. */
  predicate IsSpace(c: char) {
    var n := c as int;
    9 <= n <= 13 || 28 <= n <= 32 || n == 133 || n == 160 || n == 5760 || 8192 <= n <= 8202
      || n == 8232 || n == 8233 || n == 8239 || n == 8287 || n == 12288
  }

  function LineEnd(s: string): (k: nat)
    ensures k <= |s|
    ensures k < |s| ==> IsBreak(s[k])
    ensures forall i :: 0 <= i < k ==> !IsBreak(s[i])
  {
    if s == "" || IsBreak(s[0]) then 0 else 1 + LineEnd(s[1..])
  }

  /** How many characters the line break at `k` takes. */
  function BreakWidth(s: string, k: nat): (w: nat)
    requires k < |s|
    ensures 0 < w && k + w <= |s|
  {
    if s[k] == '\r' && k + 1 < |s| && s[k + 1] == '\n' then 2 else 1
  }

  /** The lines of `str.splitlines`, as the set the source makes of them. */
  function SplitLines(s: string): set<string>
    decreases |s|
  {
    var k := LineEnd(s);
    if s == "" then {}
    else if k == |s| then {s}
    else {s[..k]} + SplitLines(s[k + BreakWidth(s, k)..])
  }

  function Strip(s: string): string
    decreases |s|
  {
    if s == "" then ""
    else if IsSpace(s[0]) then Strip(s[1..])
    else if IsSpace(s[|s| - 1]) then Strip(s[..|s| - 1])
    else s
  }

  function StrippedLines(content: string): set<string> {
    set l | l in SplitLines(content) :: Strip(l)
  }

  /** `content.rstrip("\n")`. */
  function Trimmed(content: string): (t: string)
    ensures |t| <= |content| && content[..|t|] == t
    ensures forall i :: |t| <= i < |content| ==> content[i] == '\n'
    ensures t == "" || t[|t| - 1] != '\n'
  {
    if content != "" && content[|content| - 1] == '\n' then Trimmed(content[..|content| - 1]) else content
  }

  // ---- the delimiter ----

  function BaseDelimiter(index: nat, digest: string): string {
    "SPARKRUN_REQ_EOF_" + Text.Decimal(index) + "_" + digest
  }

  ghost function NotShorter(lines: set<string>, d: string): set<string> {
    set l | l in lines && |l| >= |d|
  }

  /** `d`, or `d` with as many `X`s as it takes to differ from every line. */
  function Extended(d: string, lines: set<string>): (r: string)
    ensures r !in lines && d <= r && forall i :: |d| <= i < |r| ==> r[i] == 'X'
    ensures forall n :: |d| <= n < |r| ==> r[..n] in lines
    decreases NotShorter(lines, d)
  {
    if d in lines then
      assert d in NotShorter(lines, d) && d !in NotShorter(lines, d + "X");
      var r := Extended(d + "X", lines);
      assert r[..|d|] == d;
      r
    else d
  }

  /** `_heredoc_delimiter`; the content hash is a parameter. */
  method HeredocDelimiter(index: nat, content: string, digest: string) returns (delim: string)
    ensures delim == Extended(BaseDelimiter(index, digest), StrippedLines(content))
    ensures delim !in StrippedLines(content)
  {
    delim := BaseDelimiter(index, digest);
    var lines := StrippedLines(content);
    while delim in lines
      invariant Extended(delim, lines) == Extended(BaseDelimiter(index, digest), lines)
      decreases NotShorter(lines, delim)
    {
      assert delim in NotShorter(lines, delim) && delim !in NotShorter(lines, delim + "X");
      delim := delim + "X";
    }
  }

  // ---- the printer ----

  datatype File = File(name: string, content: string)

  const HEAD := "cat > \""
  const MID := "\" <<'"
  const STAGE := "$VENV/.sparkrun-reqs/"
  const MKDIR := "mkdir -p \"$VENV/.sparkrun-reqs\"\n"

  function Printed(f: File, delim: string): string {
    HEAD + (STAGE + f.name) + MID + delim + "'\n" + Trimmed(f.content) + "\n" + delim + "\n"
  }

  function DelimiterOf(i: nat, f: File, digest: string -> string): string {
    Extended(BaseDelimiter(i, digest(f.content)), StrippedLines(f.content))
  }

  /** The staged text of the first `n` files. */
  function StagedText(files: seq<File>, digest: string -> string, n: nat): string
    requires n <= |files|
  {
    if n == 0 then ""
    else StagedText(files, digest, n - 1) + Printed(files[n - 1], DelimiterOf(n - 1, files[n - 1], digest))
  }

  /** The staging loop of `_provision_script`. */
  method StageLines(files: seq<File>, digest: string -> string) returns (text: string)
    ensures text == if files == [] then "" else MKDIR + StagedText(files, digest, |files|)
    // Behind its first line the shell finds every file again, and nothing else.
    ensures files != [] && HexDigests(digest) && (forall f :: f in files ==> Text.Free('"', f.name)) ==>
      MKDIR <= text && var r := ReadFiles(text[|MKDIR|..], |files|);
        && r.Some? && r.value.1 == "" && |r.value.0| == |files|
        && forall i :: 0 <= i < |files| ==> IsStaged(files[i], r.value.0[i])
  {
    hide Printed, ReadFiles, IsStaged, HexDigests;
    if files != [] && HexDigests(digest) && (forall f :: f in files ==> Text.Free('"', f.name)) {
      StagedFilesReadBack(files, digest, "");
      assert StagedText(files, digest, |files|) + "" == StagedText(files, digest, |files|);
      assert (MKDIR + StagedText(files, digest, |files|))[|MKDIR|..] == StagedText(files, digest, |files|);
    }
    text := "";
    if files != [] {
      text := MKDIR;
      for i := 0 to |files|
        invariant text == MKDIR + StagedText(files, digest, i)
      {
        var delim := HeredocDelimiter(i, files[i].content, digest(files[i].content));
        assert text + Printed(files[i], delim) == MKDIR + (StagedText(files, digest, i) + Printed(files[i], delim));
        text := text + Printed(files[i], delim);
      }
    }
  }

  // ---- the reader ----

  /**
   * The body of a here-document and the text after it: lines are taken until one consists of the delimiter alone.
   * The delimiter was quoted, so nothing in the body is expanded.
   */
  function ReadBody(text: string, delim: string): Option<(string, string)>
    decreases |text|
  {
    var k := Text.Find('\n', text);
    if k == |text| then None
    else if text[..k] == delim then Some(("", text[k + 1..]))
    else
      match ReadBody(text[k + 1..], delim)
      case None => None
      case Some((body, rest)) => Some((text[..k + 1] + body, rest))
  }

  /** One `cat > "PATH" <<'DELIM'` command with its here-document. */
  function ReadFile(text: string): Option<(File, string)> {
    if !("cat > \"" <= text) then None else
      var t := text[7..];
      var k := Text.Find('"', t);
      var u := t[k..];
      if !("\" <<'" <= u) then None else
        var v := u[5..];
        var j := Text.Find('\'', v);
        if !("'\n" <= v[j..]) then None else
          match ReadBody(v[j + 2..], v[..j])
          case None => None
          case Some((body, rest)) => Some((File(t[..k], body), rest))
  }

  /** `n` such commands in a row, and what follows them. */
  function ReadFiles(text: string, n: nat): Option<(seq<File>, string)>
    decreases n
  {
    if n == 0 then Some(([], text)) else
      match ReadFile(text)
      case None => None
      case Some((f, rest)) =>
        match ReadFiles(rest, n - 1)
        case None => None
        case Some((fs, after)) => Some(([f] + fs, after))
  }

  // ---- reading back what was printed ----

  /** A delimiter that no shell or Python line convention can split, and that a quoted word can hold. */
  predicate Clean(d: string) {
    d != "" && forall c :: c in d ==> !IsBreak(c) && !IsSpace(c) && c != '\''
  }

  lemma DelimiterIsClean(index: nat, digest: string, lines: set<string>)
    requires forall c :: c in digest ==> Text.IsDigit(c) || 'a' <= c <= 'f'
    ensures Clean(Extended(BaseDelimiter(index, digest), lines))
  {
    var b := BaseDelimiter(index, digest);
    var r := Extended(b, lines);
    Text.DecimalDigits(index);
    forall c | c in r ensures !IsBreak(c) && !IsSpace(c) && c != '\'' {
      var i :| 0 <= i < |r| && r[i] == c;
      if i < |b| {
        assert r[..|b|] == b;
        assert c == b[i] && c in b;
        assert c in "SPARKRUN_REQ_EOF_" || c in Text.Decimal(index) || c == '_' || c in digest;
      }
    }
  }

  lemma StripClean(d: string)
    requires Clean(d)
    ensures Strip(d) == d
  {
    assert d[0] in d && d[|d| - 1] in d;
  }

  lemma NewlineBreaks()
    ensures IsBreak('\n')
  {
  }

  /** Positions `i .. j` of `s` are a whole line for a reader that breaks at newlines only, and hold no break. */
  ghost predicate IsLine(s: string, i: nat, j: nat) {
    && i < j <= |s| && (i == 0 || s[i - 1] == '\n') && (j == |s| || s[j] == '\n')
    && forall x :: i <= x < j ==> !IsBreak(s[x])
  }

  lemma FirstLine(s: string, j: nat)
    requires IsLine(s, 0, j)
    ensures s[..j] in SplitLines(s)
  {
    hide IsBreak;
    NewlineBreaks();
    var k := LineEnd(s);
    assert k == j;
    if k == |s| {
      assert s[..j] == s;
    }
  }

  /** Python's first line ends before a later line begins, and that line is still one in what is left. */
  lemma LaterLine(s: string, i: nat, j: nat) returns (c: nat)
    requires IsLine(s, i, j) && i > 0
    ensures 0 < c <= i && LineEnd(s) < |s| && c == LineEnd(s) + BreakWidth(s, LineEnd(s))
    ensures IsLine(s[c..], i - c, j - c) && s[c..][i - c..j - c] == s[i..j]
  {
    hide IsBreak;
    NewlineBreaks();
    var k := LineEnd(s);
    assert k <= i - 1;
    c := k + BreakWidth(s, k);
    assert c <= i;
    SliceOfTail(s, c, i, j);
  }

  lemma SliceOfTail(s: string, c: nat, i: nat, j: nat)
    requires c <= i <= j <= |s|
    ensures s[c..][i - c..j - c] == s[i..j]
  {
  }

  lemma LaterLinesAreLines(s: string, l: string)
    requires LineEnd(s) < |s| && l in SplitLines(s[LineEnd(s) + BreakWidth(s, LineEnd(s))..])
    ensures l in SplitLines(s)
  {
    hide IsBreak, LineEnd, BreakWidth;
  }

  /** A line between newlines that holds no break of its own is also one of Python's lines. */
  lemma {:induction false} LineIsPythonLine(s: string, i: nat, j: nat)
    requires IsLine(s, i, j)
    ensures s[i..j] in SplitLines(s)
    decreases |s|
  {
    hide IsBreak, SplitLines, BreakWidth;
    if i == 0 {
      FirstLine(s, j);
      assert s[..j] == s[0..j];
    } else {
      var c := LaterLine(s, i, j);
      LineIsPythonLine(s[c..], i - c, j - c);
      LaterLinesAreLines(s, s[i..j]);
    }
  }

  /** No line of `body` is the delimiter alone. */
  predicate NoLine(body: string, d: string)
    decreases |body|
  {
    var k := Text.Find('\n', body);
    body == "" || (body[..k] != d && (k < |body| ==> NoLine(body[k + 1..], d)))
  }

  lemma SliceOfHead(s: string, n: nat, p: nat, q: nat)
    requires p <= q <= n <= |s|
    ensures s[..n][p..q] == s[p..q]
  {
  }

  /** A delimiter that is a line of the trimmed content is one of Python's stripped lines of the content. */
  lemma LineOfTheBodyIsFound(content: string, d: string, p: nat, q: nat)
    requires Clean(d)
    requires p <= q <= |Trimmed(content)|
    requires p == 0 || Trimmed(content)[p - 1] == '\n'
    requires q == |Trimmed(content)| || Trimmed(content)[q] == '\n'
    ensures Trimmed(content)[p..q] == d ==> d in StrippedLines(content)
  {
    hide IsBreak, IsSpace, SplitLines;
    var t := Trimmed(content);
    if t[p..q] == d {
      SliceOfHead(content, |t|, p, q);
      assert content[p..q] == d;
      forall x | p <= x < q ensures !IsBreak(content[x]) {
        assert d[x - p] == content[x] && d[x - p] in d;
      }
      assert p > 0 ==> content[p - 1] == t[p - 1];
      assert q < |t| ==> content[q] == t[q];
      assert IsLine(content, p, q);
      LineIsPythonLine(content, p, q);
      StripClean(d);
    }
  }

  lemma AfterLine(printed: string, p: nat, k: nat)
    requires p + k < |printed|
    ensures printed[p..][k + 1..] == printed[p + k + 1..]
    ensures printed[p..][..k] == printed[p..p + k] && printed[p..][k] == printed[p + k]
  {
  }

  /** Python found the delimiter on no line of the content, so the shell finds it on no line of the printed body. */
  lemma {:induction false} PrintedBodyHasNoDelimiter(content: string, d: string, t: string, printed: string, p: nat)
    requires Clean(d) && d !in StrippedLines(content) && t == Trimmed(content) && printed == t + "\n"
    requires p <= |printed|
    requires p == 0 || printed[p - 1] == '\n'
    ensures NoLine(printed[p..], d)
    decreases |printed| - p
  {
    hide Clean, StrippedLines, Trimmed, Text.Find;
    var body := printed[p..];
    if body != "" {
      assert body[|body| - 1] == '\n';
      var k := FoundNewline(body);
      AfterLine(printed, p, k);
      assert p + k <= |t| && printed[p..p + k] == t[p..p + k];
      assert p > 0 ==> t[p - 1] == '\n';
      assert p + k < |t| ==> t[p + k] == '\n';
      LineOfTheBodyIsFound(content, d, p, p + k);
      PrintedBodyHasNoDelimiter(content, d, t, printed, p + k + 1);
    }
  }

  /** Text that ends in a newline has a first one. */
  lemma FoundNewline(body: string) returns (k: nat)
    requires body != "" && body[|body| - 1] == '\n'
    ensures k == Text.Find('\n', body) < |body| && body[k] == '\n'
  {
    k := Text.Find('\n', body);
    assert body[|body| - 1] in body[..|body|];
    assert body[..|body|] == body;
  }

  /** One line that is not the delimiter is taken over, and the reader goes on behind it. */
  lemma LineIsTaken(line: string, rest: string, d: string)
    requires Text.Free('\n', line) && line != d
    ensures ReadBody(line + "\n" + rest, d) ==
      match ReadBody(rest, d)
      case None => None
      case Some((body, after)) => Some((line + "\n" + body, after))
  {
    hide Text.Find;
    var text := line + "\n" + rest;
    assert text == line + ['\n'] + rest;
    Text.FindAfter('\n', line, rest);
    assert text[..|line|] == line && text[|line| + 1..] == rest && text[..|line| + 1] == line + "\n";
  }

  lemma DelimiterEnds(d: string, tail: string)
    requires Text.Free('\n', d)
    ensures ReadBody(d + "\n" + tail, d) == Some(("", tail))
  {
    hide Text.Find;
    var text := d + "\n" + tail;
    assert text == d + ['\n'] + tail;
    Text.FindAfter('\n', d, tail);
    assert text[..|d|] == d && text[|d| + 1..] == tail;
  }

  /** A body of whole lines, none of them the delimiter, is read back whole and reading resumes right after it. */
  lemma {:induction false} BodyReadsBack(body: string, d: string, tail: string)
    requires NoLine(body, d) && Text.Free('\n', d)
    requires body == "" || body[|body| - 1] == '\n'
    ensures ReadBody(body + d + "\n" + tail, d) == Some((body, tail))
    decreases |body|
  {
    hide ReadBody, Text.Find;
    if body == "" {
      DelimiterEnds(d, tail);
      assert body + d + "\n" + tail == d + "\n" + tail;
    } else {
      var k := FoundNewline(body);
      var line, rest := body[..k], body[k + 1..];
      assert body == line + "\n" + rest;
      var after := rest + d + "\n" + tail;
      assert body + d + "\n" + tail == line + "\n" + after;
      LineIsTaken(line, after, d);
      BodyReadsBack(rest, d, tail);
    }
  }

  /** The parts of a command line, as they are found again. */
  lemma HeaderReadsBack(name: string, d: string, after: string)
    requires Text.Free('"', name) && Text.Free('\'', d)
    ensures var t := name + MID + d + "'\n" + after;
      var v := d + "'\n" + after;
      && Text.Find('"', t) == |name| && t[..|name|] == name && MID <= t[|name|..] && t[|name|..][|MID|..] == v
      && Text.Find('\'', v) == |d| && v[..|d|] == d && "'\n" <= v[|d|..] && v[|d| + 2..] == after
  {
    var t := name + MID + d + "'\n" + after;
    var v := d + "'\n" + after;
    var m := " <<'" + v;
    assert t == name + ['"'] + m;
    Text.FindAfter('"', name, m);
    assert t[|name|..] == MID + v;
    assert v == d + ['\''] + ("\n" + after);
    Text.FindAfter('\'', d, "\n" + after);
  }

  lemma FileReadsBack(f: File, d: string, tail: string)
    requires Clean(d) && d !in StrippedLines(f.content) && Text.Free('"', f.name)
    ensures ReadFile(Printed(f, d) + tail) == Some((File(STAGE + f.name, Trimmed(f.content) + "\n"), tail))
  {
    hide StrippedLines, Trimmed, ReadBody, NoLine, Clean, Text.Find;
    var body := Trimmed(f.content) + "\n";
    var after := body + d + "\n" + tail;
    var t := STAGE + f.name + MID + d + "'\n" + after;
    CleanIsFree(d);
    assert Text.Free('"', STAGE + f.name);
    HeaderReadsBack(STAGE + f.name, d, after);
    PrintedShape(f, d, tail);
    PrintedBodyHasNoDelimiter(f.content, d, Trimmed(f.content), body, 0);
    assert body[0..] == body;
    BodyReadsBack(body, d, tail);
  }

  lemma Regrouped(head: string, name: string, mid: string, d: string, q: string, c: string, n: string, tail: string)
    ensures var t := name + mid + d + q + (c + n + d + n + tail);
      && head + name + mid + d + q + c + n + d + n + tail == head + t
      && head <= head + t && (head + t)[|head|..] == t
  {
    assert head <= head + (name + mid + d + q + (c + n + d + n + tail));
  }

  lemma PrintedShape(f: File, d: string, tail: string)
    ensures var t := STAGE + f.name + MID + d + "'\n" + (Trimmed(f.content) + "\n" + d + "\n" + tail);
      Printed(f, d) + tail == HEAD + t && HEAD <= HEAD + t && (HEAD + t)[|HEAD|..] == t
  {
    hide Trimmed;
    Regrouped(HEAD, STAGE + f.name, MID, d, "'\n", Trimmed(f.content), "\n", tail);
  }

  lemma CleanIsFree(d: string)
    requires Clean(d)
    ensures Text.Free('\n', d) && Text.Free('\'', d)
  {
    NewlineBreaks();
  }

  lemma {:induction false} ReadFilesAppend(text: string, n: nat, fs: seq<File>, mid: string, f: File, rest: string)
    requires ReadFiles(text, n) == Some((fs, mid)) && ReadFile(mid) == Some((f, rest))
    ensures ReadFiles(text, n + 1) == Some((fs + [f], rest))
    decreases n
  {
    hide ReadFile;
    if n == 0 {
      assert ReadFiles(rest, 0) == Some(([], rest));
      assert fs + [f] == [f] + [];
    } else {
      var r := ReadFile(text).value;
      var gs := ReadFiles(r.1, n - 1).value;
      ReadFilesAppend(r.1, n - 1, gs.0, mid, f, rest);
      assert [r.0] + (gs.0 + [f]) == fs + [f];
    }
  }

  /** What the shell writes for each staged file. */
  function Written(files: seq<File>): seq<File> {
    seq(|files|, i requires 0 <= i < |files| => File(STAGE + files[i].name, Trimmed(files[i].content) + "\n"))
  }

  /** `g` is staged file `f` in its place: its content without the newlines at its end, and one newline. */
  ghost predicate IsStaged(f: File, g: File) {
    && g.name == "$VENV/.sparkrun-reqs/" + f.name
    && g.content != "" && g.content[|g.content| - 1] == '\n'
    && var n := |g.content| - 1;
      && n <= |f.content| && g.content[..n] == f.content[..n]
      && (forall i :: n <= i < |f.content| ==> f.content[i] == '\n')
      && (n == 0 || f.content[n - 1] != '\n')
  }

  lemma WrittenIsStaged(f: File)
    ensures IsStaged(f, File(STAGE + f.name, Trimmed(f.content) + "\n"))
  {
  }

  ghost predicate HexDigests(digest: string -> string) {
    forall s, c :: c in digest(s) ==> Text.IsDigit(c) || 'a' <= c <= 'f'
  }

  /** The printed files are read back one after the other. */
  lemma {:induction false} WrittenReadsBack(files: seq<File>, digest: string -> string, n: nat, tail: string)
    requires n <= |files| && HexDigests(digest)
    requires forall f :: f in files ==> Text.Free('"', f.name)
    ensures ReadFiles(StagedText(files, digest, n) + tail, n) == Some((Written(files[..n]), tail))
  {
    hide Printed, ReadFile, ReadFiles, Trimmed, Extended, StrippedLines, Clean;
    if n == 0 {
      assert "" + tail == tail;
      NoFiles(tail);
      assert Written(files[..0]) == [];
    } else {
      var f := files[n - 1];
      var d := DelimiterOf(n - 1, f, digest);
      DelimiterIsClean(n - 1, digest(f.content), StrippedLines(f.content));
      FileReadsBack(f, d, tail);
      var last := Printed(f, d) + tail;
      WrittenReadsBack(files, digest, n - 1, last);
      var text := StagedText(files, digest, n) + tail;
      assert text == StagedText(files, digest, n - 1) + last;
      var w := File(STAGE + f.name, Trimmed(f.content) + "\n");
      ReadFilesAppend(text, n - 1, Written(files[..n - 1]), last, w, tail);
      assert Written(files[..n]) == Written(files[..n - 1]) + [w];
    }
  }

  lemma NoFiles(text: string)
    ensures ReadFiles(text, 0) == Some(([], text))
  {
  }

  /**
   * For any list of files and any script after them, the shell writes every file into the staging directory under its
   * own name, whole but for the newlines at its end, in order, and goes on exactly where the printed text ends.
   */
  lemma StagedFilesReadBack(files: seq<File>, digest: string -> string, tail: string)
    requires HexDigests(digest)
    requires forall f :: f in files ==> Text.Free('"', f.name)
    ensures var r := ReadFiles(StagedText(files, digest, |files|) + tail, |files|);
      && r.Some? && r.value.1 == tail && |r.value.0| == |files|
      && forall i :: 0 <= i < |files| ==> IsStaged(files[i], r.value.0[i])
  {
    hide StagedText, ReadFiles, Trimmed, IsStaged;
    WrittenReadsBack(files, digest, |files|, tail);
    assert files[..|files|] == files;
    forall i | 0 <= i < |files| ensures IsStaged(files[i], Written(files)[i]) {
      WrittenIsStaged(files[i]);
    }
  }
}
