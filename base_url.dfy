/** The base-URL question of the `init` command (index.js:662-678). The
    input prompt offers a default, rejects an entry that is blank after
    `String.prototype.trim`, and otherwise accepts exactly the entries the
    WHATWG `URL` constructor parses; that parser is not part of this model
    and comes in as the predicate `parsesAsUrl`. */
module BaseUrlPrompt {
  import opened Text

  const DefaultBaseUrl: string := "https://pumpup-api.devstree.in/api/v1"
  const EmptyMessage: string := "API base URL cannot be empty"
  const InvalidMessage: string := "Please enter a valid URL (e.g., https://example.com/api)"

  /** The characters `trim` removes: ECMAScript WhiteSpace and
      LineTerminator (section 22.1.3.32 of ECMA-262). */
  predicate IsTrimmable(c: char)
  {
    var n := c as int;
    n == 0x09 || n == 0x0A || n == 0x0B || n == 0x0C || n == 0x0D || n == 0x20 ||
    n == 0xA0 || n == 0x1680 || (0x2000 <= n <= 0x200A) || n == 0x2028 || n == 0x2029 ||
    n == 0x202F || n == 0x205F || n == 0x3000 || n == 0xFEFF
  }

  function TrimStart(s: string): (r: string)
    ensures |r| <= |s| && r == s[|s| - |r|..]
    ensures r == [] || !IsTrimmable(r[0])
  {
    if s != [] && IsTrimmable(s[0]) then TrimStart(s[1..]) else s
  }

  function TrimEnd(s: string): (r: string)
    ensures |r| <= |s| && r == s[..|r|]
    ensures r == [] || !IsTrimmable(r[|r| - 1])
  {
    if s != [] && IsTrimmable(s[|s| - 1]) then TrimEnd(s[..|s| - 1]) else s
  }

  /** `s.trim()` */
  function Trim(s: string): string
  {
    TrimEnd(TrimStart(s))
  }

  predicate Blank(s: string)
  {
    forall i :: 0 <= i < |s| ==> IsTrimmable(s[i])
  }

  lemma {:induction false} TrimStartBlank(s: string)
    ensures TrimStart(s) == [] <==> Blank(s)
  {
    if s != [] && IsTrimmable(s[0]) {
      TrimStartBlank(s[1..]);
      assert forall i :: 1 <= i < |s| ==> s[i] == s[1..][i - 1];
    }
  }

  /** `trim` gives the empty string exactly on blank input. */
  lemma TrimEmpty(s: string)
    ensures Trim(s) == "" <==> Blank(s)
  {
    TrimStartBlank(s);
    var u := TrimStart(s);
    TrimEndSuffix(u);
  }

  /** Trimming removes only trimmable characters, and only at the ends. */
  lemma TrimInside(s: string)
    ensures exists a, b :: TrimmedBetween(s, Trim(s), a, b)
  {
    var u := TrimStart(s);
    var r := Trim(s);
    var a := |s| - |u|;
    var b := a + |r|;
    assert a <= b <= |s| && r == s[a..b] && s[b..] == u[|r|..] by {
      SuffixSlices(s, a, u, |r|);
    }
    assert Blank(s[..a]) by {
      TrimStartPrefix(s);
    }
    assert Blank(s[b..]) by {
      TrimEndSuffix(u);
    }
    TrimEnds(s);
    assert TrimmedBetween(s, r, a, b);
  }

  /** Cutting a suffix `u == s[a..]` at `k` cuts `s` at `a + k`. */
  lemma SuffixSlices<T>(s: seq<T>, a: nat, u: seq<T>, k: nat)
    requires a <= |s| && u == s[a..] && k <= |u|
    ensures u[..k] == s[a..a + k] && u[k..] == s[a + k..]
  {
  }

  /** `trim` keeps no trimmable character at either end. */
  lemma TrimEnds(s: string)
    ensures var r := Trim(s);
      r == [] || (!IsTrimmable(r[0]) && !IsTrimmable(r[|r| - 1]))
  {
    var u := TrimStart(s);
    var r := TrimEnd(u);
    if r != [] {
      assert r[0] == u[0];
    }
  }

  /** `r` is `s[a..b]`, everything outside it is blank, and it neither
      starts nor ends with a trimmable character. */
  predicate TrimmedBetween(s: string, r: string, a: int, b: int)
  {
    && 0 <= a <= b <= |s| && r == s[a..b]
    && Blank(s[..a]) && Blank(s[b..])
    && (r == [] || (!IsTrimmable(r[0]) && !IsTrimmable(r[|r| - 1])))
  }

  lemma {:induction false} TrimStartPrefix(s: string)
    ensures Blank(s[..|s| - |TrimStart(s)|])
  {
    if s != [] && IsTrimmable(s[0]) {
      TrimStartPrefix(s[1..]);
      var k := |s| - |TrimStart(s)|;
      assert forall i :: 1 <= i < k ==> s[..k][i] == s[1..][..k - 1][i - 1];
    }
  }

  lemma {:induction false} TrimEndSuffix(s: string)
    ensures Blank(s[|TrimEnd(s)|..])
  {
    if s != [] && IsTrimmable(s[|s| - 1]) {
      var t := s[..|s| - 1];
      TrimEndSuffix(t);
      var k := |TrimEnd(s)|;
      assert forall i :: 0 <= i < |s| - 1 - k ==> s[k..][i] == t[k..][i];
    }
  }

  datatype Verdict = Accepted | Rejected(message: string)

  /** The `validate` callback of index.js:668-676. */
  function Validate(input: string, parsesAsUrl: string -> bool): (v: Verdict)
    ensures v == Accepted <==> !Blank(input) && parsesAsUrl(input)
    ensures Blank(input) ==> v == Rejected(EmptyMessage)
    ensures !Blank(input) && !parsesAsUrl(input) ==> v == Rejected(InvalidMessage)
  {
    TrimEmpty(input);
    if Trim(input) == "" then Rejected(EmptyMessage)
    else if parsesAsUrl(input) then Accepted
    else Rejected(InvalidMessage)
  }

  /** What the prompt hands to `validate` for a submitted line: an empty
      line stands for the default. */
  function Submitted(line: string): (v: string)
    ensures line == "" ==> v == DefaultBaseUrl
    ensures line != "" ==> v == line
  {
    if line == "" then DefaultBaseUrl else line
  }

  /** A submitted line that passes validation. */
  predicate Acceptable(line: string, parsesAsUrl: string -> bool)
  {
    Validate(Submitted(line), parsesAsUrl) == Accepted
  }

  /** The index of the first line at or after `from` that `ok` accepts,
      or `|lines|` when there is none. */
  function FirstWhere(lines: seq<string>, ok: string -> bool, from: nat): (i: nat)
    requires from <= |lines|
    ensures from <= i <= |lines|
    ensures forall j :: from <= j < i ==> !ok(lines[j])
    ensures i < |lines| ==> ok(lines[i])
    decreases |lines| - from
  {
    if from == |lines| then from
    else if ok(lines[from]) then from
    else FirstWhere(lines, ok, from + 1)
  }

  /** The prompt asks again after every rejection: the answer is the first
      submitted line that validates, if any does. */
  function Answer(lines: seq<string>, parsesAsUrl: string -> bool): (a: Option<string>)
    ensures a.Some? ==> Validate(a.value, parsesAsUrl) == Accepted
    ensures a.None? <==> forall i :: 0 <= i < |lines| ==> !Acceptable(lines[i], parsesAsUrl)
    ensures a.Some? ==> exists i :: FirstAcceptableAt(lines, parsesAsUrl, i) && a.value == Submitted(lines[i])
  {
    var i := FirstWhere(lines, line => Acceptable(line, parsesAsUrl), 0);
    if i == |lines| then None
    else
      assert FirstAcceptableAt(lines, parsesAsUrl, i);
      Some(Submitted(lines[i]))
  }

  /** Line `i` is the first submitted line that validates. */
  predicate FirstAcceptableAt(lines: seq<string>, parsesAsUrl: string -> bool, i: int)
  {
    && 0 <= i < |lines|
    && Acceptable(lines[i], parsesAsUrl)
    && forall j :: 0 <= j < i ==> !Acceptable(lines[j], parsesAsUrl)
  }

  /** An answer is never blank: the setup always receives a non-blank URL
      that the URL parser accepted. */
  lemma AnswerNotBlank(lines: seq<string>, parsesAsUrl: string -> bool)
    ensures var a := Answer(lines, parsesAsUrl);
      a.Some? ==> !Blank(a.value) && Trim(a.value) != "" && parsesAsUrl(a.value)
  {
    var a := Answer(lines, parsesAsUrl);
    if a.Some? {
      TrimEmpty(a.value);
    }
  }
}
