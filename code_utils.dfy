/** The backend's handling of generated text: pull the script out of the first fenced code
    block (or take the whole reply), and screen it against the backend's own token list. */
module CodeUtils {
  import opened Options
  import opened Text
  import Denylist

  // ---------------------------------------------------------------------------------------
  // BLOCK_RE = r"```python\n(.*?)```|```\n(.*?)```" with DOTALL and IGNORECASE, used by search
  // ---------------------------------------------------------------------------------------

  /** A run of three backticks starts at index `k`. */
  predicate FenceAt(s: string, k: int) {
    0 <= k && k + 3 <= |s| && s[k] == '`' && s[k + 1] == '`' && s[k + 2] == '`'
  }

  /** Under IGNORECASE, `c` matches the lower-case ASCII pattern letter `p`. No non-ASCII
      character case-folds to a letter of "python", so only the ASCII upper case is added. */
  predicate FoldsTo(c: char, p: char) {
    c == p || c as int + 32 == p as int
  }

  /** The first alternative's opener "```python\n" (any case for "python") starts at `i`. */
  predicate PythonOpenerAt(s: string, i: int) {
    0 <= i && i + 10 <= |s| && FenceAt(s, i)
    && FoldsTo(s[i + 3], 'p') && FoldsTo(s[i + 4], 'y') && FoldsTo(s[i + 5], 't')
    && FoldsTo(s[i + 6], 'h') && FoldsTo(s[i + 7], 'o') && FoldsTo(s[i + 8], 'n')
    && s[i + 9] == '\n'
  }

  /** The second alternative's opener "```\n" starts at `i`. */
  predicate BareOpenerAt(s: string, i: int) {
    0 <= i && i + 4 <= |s| && FenceAt(s, i) && s[i + 3] == '\n'
  }

  /** Some closing fence starts at or after `b`. */
  ghost predicate ClosedFrom(s: string, b: int) {
    exists k :: b <= k && FenceAt(s, k)
  }

  /** The pattern matches at index `i`: an opener there and a closing fence somewhere after it. */
  ghost predicate BlockAt(s: string, i: int) {
    (PythonOpenerAt(s, i) && ClosedFrom(s, i + 10)) || (BareOpenerAt(s, i) && ClosedFrom(s, i + 4))
  }

  /** Where a match lies: the opener's index, and the body `s[bodyStart..bodyEnd]`. */
  datatype Match = Match(start: nat, bodyStart: nat, bodyEnd: nat)

  /** `m` is the match the regex engine reports at `m.start`: the body begins right after the
      opener and, the group being non-greedy, ends at the first fence after it. */
  ghost predicate MatchedAt(s: string, m: Match) {
    BlockAt(s, m.start)
    && m.bodyStart == m.start + (if PythonOpenerAt(s, m.start) then 10 else 4)
    && m.bodyStart <= m.bodyEnd && FenceAt(s, m.bodyEnd)
    && forall k :: m.bodyStart <= k < m.bodyEnd ==> !FenceAt(s, k)
  }

  /** `m` is what `search` reports when scanning from `from`: the match at the leftmost index. */
  ghost predicate LeftmostFrom(s: string, from: int, m: Match) {
    from <= m.start && MatchedAt(s, m) && forall j :: from <= j < m.start ==> !BlockAt(s, j)
  }

  /** The first fence at or after `from`: where a non-greedy `(.*?)```` stops. */
  function FindFence(s: string, from: nat): (r: Option<nat>)
    ensures r.Some? ==> from <= r.value && FenceAt(s, r.value)
    ensures r.Some? ==> forall k :: from <= k < r.value ==> !FenceAt(s, k)
    ensures r.None? ==> forall k :: from <= k ==> !FenceAt(s, k)
    decreases |s| - from
  {
    if from + 3 > |s| then None
    else if FenceAt(s, from) then Some(from)
    else FindFence(s, from + 1)
  }

  /** Matching at one index: the `python` alternative first, then the bare one. */
  function MatchAt(s: string, i: nat): (r: Option<Match>)
    ensures r.None? ==> !BlockAt(s, i)
    ensures r.Some? ==> r.value.start == i && MatchedAt(s, r.value)
  {
    if PythonOpenerAt(s, i) && FindFence(s, i + 10).Some? then
      Some(Match(i, i + 10, FindFence(s, i + 10).value))
    else if BareOpenerAt(s, i) && FindFence(s, i + 4).Some? then
      assert !PythonOpenerAt(s, i);
      Some(Match(i, i + 4, FindFence(s, i + 4).value))
    else
      None
  }

  /** `BLOCK_RE.search(s, from)`: try each start index in turn, leftmost first. */
  function Search(s: string, from: nat): (r: Option<Match>)
    ensures r.None? ==> forall i :: from <= i ==> !BlockAt(s, i)
    ensures r.Some? ==> LeftmostFrom(s, from, r.value)
    decreases |s| + 1 - from
  {
    if from > |s| then
      assert forall i :: from <= i ==> !FenceAt(s, i);
      None
    else match MatchAt(s, from)
      case Some(m) => Some(m)
      case None => Search(s, from + 1)
  }

  // ---------------------------------------------------------------------------------------
  // extract_code
  // ---------------------------------------------------------------------------------------

  /** `extract_code(text)`: the stripped body of the leftmost fenced block, or the whole text
      stripped when there is none. The result never has whitespace at either end. */
  function ExtractCode(text: string): (r: string)
    ensures NoSurroundingSpace(r)
  {
    match Search(text, 0)
    case None => Strip(text)
    case Some(m) => Strip(text[m.bodyStart..m.bodyEnd])
  }

  /** Without a block, the result is the whole text stripped. */
  lemma ExtractCodeWithoutBlock(text: string)
    requires forall i :: 0 <= i ==> !BlockAt(text, i)
    ensures ExtractCode(text) == Strip(text)
  {
  }

  /** With a block, the result is the stripped body of the leftmost one, which ends at the
      first fence after its opener. */
  lemma ExtractCodeLeftmostBlock(text: string, m: Match)
    requires LeftmostFrom(text, 0, m)
    ensures ExtractCode(text) == Strip(text[m.bodyStart..m.bodyEnd])
  {
    LeftmostUnique(text, m, Search(text, 0).value);
  }

  /** A body extracted from a block contains no fence. */
  lemma ExtractedBodyHasNoFence(text: string, i: int)
    requires BlockAt(text, i)
    ensures forall k :: !FenceAt(ExtractCode(text), k)
  {
    assert Search(text, 0).Some?;
    var m := Search(text, 0).value;
    var body := text[m.bodyStart..m.bodyEnd];
    var r, off := Strip(body), StripOffset(body);
    assert ExtractCode(text) == r;
    assert r == body[off..off + |r|];
    NoFenceInSlice(text, m.bodyStart, m.bodyEnd);
    NoFenceInSlice(body, off, off + |r|);
  }

  /** Only one match is leftmost. */
  lemma LeftmostUnique(s: string, m: Match, m': Match)
    requires LeftmostFrom(s, 0, m) && LeftmostFrom(s, 0, m')
    ensures m' == m
  {
    assert m'.start == m.start;
    assert m'.bodyEnd <= m.bodyEnd by {
      assert m.bodyStart <= m.bodyEnd && FenceAt(s, m.bodyEnd);
    }
    assert m.bodyEnd <= m'.bodyEnd by {
      assert m'.bodyStart <= m'.bodyEnd && FenceAt(s, m'.bodyEnd);
    }
  }

  /** A fence inside a slice is a fence in the whole text, at the shifted index. */
  lemma FenceInSlice(s: string, a: nat, c: nat, k: int)
    requires a <= c <= |s|
    requires FenceAt(s[a..c], k)
    ensures FenceAt(s, a + k)
  {
    var t := s[a..c];
    assert t[k] == s[a + k] && t[k + 1] == s[a + k + 1] && t[k + 2] == s[a + k + 2];
  }

  /** A slice of fence-free text (no fence starting in `[a, c)`) contains no fence. */
  lemma NoFenceInSlice(s: string, a: nat, c: nat)
    requires a <= c <= |s|
    requires forall k :: a <= k < c ==> !FenceAt(s, k)
    ensures forall k :: !FenceAt(s[a..c], k)
  {
    forall k | FenceAt(s[a..c], k) ensures false {
      FenceInSlice(s, a, c, k);
    }
  }

  /** A match inside a slice is a match in the whole text, at the shifted index. */
  lemma BlockInSlice(s: string, a: nat, c: nat, p: int)
    requires a <= c <= |s|
    requires BlockAt(s[a..c], p)
    ensures BlockAt(s, a + p)
  {
    var t := s[a..c];
    FenceInSlice(s, a, c, p);
    var k :| (p + 4 <= k && FenceAt(t, k));
    FenceInSlice(s, a, c, k);
    assert t[p + 3] == s[a + p + 3];
    if PythonOpenerAt(t, p) {
      assert t[p + 4] == s[a + p + 4] && t[p + 5] == s[a + p + 5] && t[p + 6] == s[a + p + 6];
      assert t[p + 7] == s[a + p + 7] && t[p + 8] == s[a + p + 8] && t[p + 9] == s[a + p + 9];
      assert PythonOpenerAt(s, a + p);
      var k' :| p + 10 <= k' && FenceAt(t, k');
      FenceInSlice(s, a, c, k');
    } else {
      assert BareOpenerAt(s, a + p);
    }
  }

  /** Text without a fence has no match, so `extract_code` only strips it. */
  lemma ExtractCodeFenceFree(s: string)
    requires forall k :: !FenceAt(s, k)
    ensures ExtractCode(s) == Strip(s)
  {
    ExtractCodeWithoutBlock(s);
  }

  /** Extracting again changes nothing: the result never holds a block, and it is already
      stripped. */
  lemma {:induction false} ExtractCodeIdempotent(text: string)
    ensures ExtractCode(ExtractCode(text)) == ExtractCode(text)
  {
    var r := ExtractCode(text);
    if Search(text, 0).Some? {
      ExtractedBodyHasNoFence(text, Search(text, 0).value.start);
      ExtractCodeFenceFree(r);
    } else {
      ExtractCodeWithoutBlock(text);
      StrippedHasNoBlock(text);
      ExtractCodeWithoutBlock(r);
    }
    StripStripped(r);
  }

  /** Stripping text that holds no block cannot create one. */
  lemma StrippedHasNoBlock(text: string)
    requires forall i :: 0 <= i ==> !BlockAt(text, i)
    ensures forall p :: 0 <= p ==> !BlockAt(Strip(text), p)
  {
    var r, a := Strip(text), StripOffset(text);
    forall p | 0 <= p && BlockAt(r, p) ensures false {
      BlockInSlice(text, a, a + |r|, p);
    }
  }

  /** An empty reply extracts to the empty script. */
  lemma ExtractCodeEmpty()
    ensures ExtractCode("") == ""
  {
  }

  /** "```py\n" is not an opener: the letters after the fence are not "python", and the bare
      alternative needs a newline right after the fence. */
  lemma ShortLanguageTagIsNotABlock(s: string)
    requires s == "```py\nx = 1\n```"
    ensures ExtractCode(s) == s
  {
    SampleHasNoBlock(s);
    ExtractCodeWithoutBlock(s);
    StripStripped(s);
  }

  lemma SampleHasNoBlock(s: string)
    requires s == "```py\nx = 1\n```"
    ensures forall i :: 0 <= i ==> !BlockAt(s, i)
  {
    assert |s| == 15 && s[3] == 'p' && s[5] == '\n';
    assert forall j :: 3 <= j < 12 ==> s[j] != '`';
  }

  /** A typical model reply: prose around a ```Python block. */
  lemma ExtractsLeftmostBody(s: string)
    requires s == "Sure:\n```Python\nprint(1)\n```\nok"
    ensures ExtractCode(s) == "print(1)"
  {
    SampleBlock(s);
    var body := s[16..25];
    SampleBody(s, body);
    StripsNewline(body);
  }

  lemma SampleBlock(s: string)
    requires s == "Sure:\n```Python\nprint(1)\n```\nok"
    ensures ExtractCode(s) == Strip(s[16..25])
  {
    assert forall j :: 0 <= j < 6 ==> s[j] != '`';
    assert forall j :: 16 <= j < 25 ==> s[j] != '`';
    assert PythonOpenerAt(s, 6);
    assert FenceAt(s, 25);
    assert MatchedAt(s, Match(6, 16, 25));
    ExtractCodeLeftmostBlock(s, Match(6, 16, 25));
  }

  lemma SampleBody(s: string, body: string)
    requires s == "Sure:\n```Python\nprint(1)\n```\nok" && body == s[16..25]
    ensures body == "print(1)\n"
  {
  }

  lemma StripsNewline(body: string)
    requires body == "print(1)\n"
    ensures Strip(body) == "print(1)"
  {
    assert TrimStart(body) == body;
    assert body[..8] == "print(1)";
    assert TrimEnd(body[..8]) == body[..8];
  }

  // ---------------------------------------------------------------------------------------
  // looks_unsafe
  // ---------------------------------------------------------------------------------------

  /** The backend's denylist, in its own order. */
  const BannedTokens: seq<string> := [
    "import ", " __", " exec(", " eval(", "open(", "os.", "sys.", "subprocess",
    "shutil", "socket", "requests", "httpx", "urllib", "ftplib", "pickle", "dill",
    "builtins", "globals(", "locals(", "compile(", "input(", "setattr(", "getattr(",
    "delattr(", "memoryview", "ctypes", "cffi", "multiprocessing", "thread", "fork"
  ]

  /** `looks_unsafe(code)`: the shared scan over the backend's list, with the sandbox message. What
      it returns is stated by `LooksUnsafeAccepts` and `LooksUnsafeRefuses`. */
  function LooksUnsafe(code: string): (r: Option<string>)
  {
    Denylist.Screen(BannedTokens, code, "' is not allowed in the sandbox.")
  }

  /** `looks_unsafe` passes a script exactly when no backend token occurs in `code.lower()`. */
  lemma LooksUnsafeAccepts(code: string)
    ensures LooksUnsafe(code).None? <==> forall j :: 0 <= j < |BannedTokens| ==> !Contains(Lower(code), BannedTokens[j])
  {
  }

  /** Otherwise it refuses the script with the sandbox message for the first-listed token that
      occurs in `code.lower()`. */
  lemma LooksUnsafeRefuses(code: string, k: int)
    requires Denylist.FirstListed(BannedTokens, Lower(code), k)
    ensures LooksUnsafe(code) == Some("Use of '" + Strip(BannedTokens[k]) + "' is not allowed in the sandbox.")
  {
  }

  /** The backend check ignores case. */
  lemma LooksUnsafeIgnoresCase(code: string)
    ensures LooksUnsafe(Lower(code)) == LooksUnsafe(code)
  {
    Denylist.ScreenIgnoresCase(BannedTokens, code, "' is not allowed in the sandbox.");
  }
}
