/**
 * Executable names: ASCII case-insensitive equality (`eq_ignore_ascii_case`),
 * cutting a wide-character buffer at its first NUL, and the first-match search
 * that `find_map` performs over a list of names.
 */
module AsciiNames {
  import opened Results

  predicate IsAsciiUpper(c: char) {
    'A' <= c <= 'Z'
  }

  /** `to_ascii_lowercase` of one character: only 'A'..'Z' change. */
  function AsciiLower(c: char): (r: char)
    ensures !IsAsciiUpper(r)
    ensures r == c || (IsAsciiUpper(c) && r as int == c as int + 32)
  {
    if IsAsciiUpper(c) then (c as int + 32) as char else c
  }

  /** A whole name lower-cased, character by character. */
  function Lowered(s: seq<char>): (r: seq<char>)
    ensures |r| == |s|
    ensures forall i :: 0 <= i < |s| ==> r[i] == AsciiLower(s[i])
  {
    seq(|s|, i requires 0 <= i < |s| => AsciiLower(s[i]))
  }

  /**
   * `eq_ignore_ascii_case`: same length, and position by position the two
   * characters agree once ASCII letters are folded to lower case.
   */
  predicate EqIgnoreAsciiCase(a: seq<char>, b: seq<char>): (r: bool)
    ensures r <==> Lowered(a) == Lowered(b)
  {
    |a| == |b| && forall i :: 0 <= i < |a| ==> AsciiLower(a[i]) == AsciiLower(b[i])
  }

  /** The comparison is an equivalence relation. */
  lemma EqIgnoreAsciiCaseIsEquivalence(a: seq<char>, b: seq<char>, c: seq<char>)
    ensures EqIgnoreAsciiCase(a, a)
    ensures EqIgnoreAsciiCase(a, b) ==> EqIgnoreAsciiCase(b, a)
    ensures EqIgnoreAsciiCase(a, b) && EqIgnoreAsciiCase(b, c) ==> EqIgnoreAsciiCase(a, c)
  {
  }

  /** A process literally named "Foo.EXE" matches the query "foo.exe". */
  lemma CaseInsensitiveExample()
    ensures EqIgnoreAsciiCase("Foo.EXE", "foo.exe")
    ensures !EqIgnoreAsciiCase("foo.exe", "foo.ex")
  {
    assert AsciiLower('F') == 'f';
    assert AsciiLower('E') == 'e';
    assert AsciiLower('X') == 'x';
  }

  /** `iter().position(|c| *c == x)`: the index of the first occurrence of x. */
  function Position(s: seq<char>, x: char): (r: Option<nat>)
    ensures r.Some? ==> r.value < |s| && s[r.value] == x && x !in s[..r.value]
    ensures r.None? <==> x !in s
  {
    if s == [] then None
    else if s[0] == x then Some(0)
    else
      match Position(s[1..], x)
      case None => None
      case Some(j) =>
        assert s[..j + 1] == [s[0]] + s[1..][..j];
        Some(j + 1)
  }

  /**
   * The name held in a NUL-terminated wide-character buffer: everything before
   * the first NUL. The buffer must hold a NUL (the source unwraps the search).
   */
  function TruncateAtNul(buffer: seq<char>): (name: seq<char>)
    requires '\0' in buffer
    ensures |name| < |buffer| && buffer[|name|] == '\0'
    ensures name == buffer[..|name|] && '\0' !in name
  {
    buffer[..Position(buffer, '\0').value]
  }

  /** A buffer holding a name followed by a NUL and anything at all gives the name back. */
  lemma TruncateAtNulOfTerminated(name: seq<char>, rest: seq<char>)
    requires '\0' !in name
    ensures TruncateAtNul(name + ['\0'] + rest) == name
  {
    var buffer := name + ['\0'] + rest;
    var cut := TruncateAtNul(buffer);
    assert buffer[|name|] == '\0';
    assert forall i :: 0 <= i < |name| ==> buffer[i] == name[i] && buffer[i] != '\0';
    assert buffer[..|name|] == name;
  }

  /**
   * The first index, in list order, whose name equals target ignoring ASCII
   * case: the `find_map(... eq_ignore_ascii_case ...)` of the source.
   */
  function FindFirst(names: seq<seq<char>>, target: seq<char>): (r: Option<nat>)
    ensures r.Some? ==>
      && r.value < |names|
      && EqIgnoreAsciiCase(names[r.value], target)
      && forall j :: 0 <= j < r.value ==> !EqIgnoreAsciiCase(names[j], target)
    ensures r.None? <==> forall j :: 0 <= j < |names| ==> !EqIgnoreAsciiCase(names[j], target)
  {
    if names == [] then None
    else if EqIgnoreAsciiCase(names[0], target) then Some(0)
    else
      match FindFirst(names[1..], target)
      case None => None
      case Some(j) => Some(j + 1)
  }

  /** A later duplicate of the target never shadows an earlier one. */
  lemma FindFirstIsFirst(names: seq<seq<char>>, target: seq<char>, i: nat)
    requires i < |names| && EqIgnoreAsciiCase(names[i], target)
    ensures FindFirst(names, target).Some? && FindFirst(names, target).value <= i
  {
  }

  /** Appending names after a match does not change the match. */
  lemma {:induction false} FindFirstPrefix(names: seq<seq<char>>, more: seq<seq<char>>, target: seq<char>)
    requires FindFirst(names, target).Some?
    ensures FindFirst(names + more, target) == FindFirst(names, target)
  {
    if !EqIgnoreAsciiCase(names[0], target) {
      assert (names + more)[1..] == names[1..] + more;
      FindFirstPrefix(names[1..], more, target);
    }
  }
}
