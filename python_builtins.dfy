/** The behaviour of the Python string built-ins the modelled code calls. */
module PyBuiltins {

  /** `c.isspace()`: the characters `str.split()` without arguments splits on. */
  predicate IsSpace(c: char) {
    var n := c as int;
    n == 32 || 9 <= n <= 13 || 28 <= n <= 31 || n == 0x85 || n == 0xA0 || n == 0x1680
    || 0x2000 <= n <= 0x200A || n == 0x2028 || n == 0x2029 || n == 0x202F || n == 0x205F
    || n == 0x3000
  }

  /** A piece `str.split()` can produce: non-empty and free of whitespace. */
  predicate IsToken(t: string) {
    t != [] && forall k :: 0 <= k < |t| ==> !IsSpace(t[k])
  }

  /** `str.lower()` on one character, for the ASCII letters. */
  function LowerChar(c: char): char {
    if 'A' <= c <= 'Z' then (c as int + 32) as char else c
  }

  /** `s.lower()`. */
  function Lower(s: string): (r: string)
    ensures |r| == |s|
    ensures forall k :: 0 <= k < |s| ==> r[k] == LowerChar(s[k])
  {
    seq(|s|, k requires 0 <= k < |s| => LowerChar(s[k]))
  }

  /** The characters of `s` that are not whitespace, in order. */
  function NonSpace(s: string): string {
    if s == [] then [] else (if IsSpace(s[0]) then [] else [s[0]]) + NonSpace(s[1..])
  }

  /** All pieces of `r`, concatenated. */
  function Concat(r: seq<string>): string {
    if r == [] then [] else r[0] + Concat(r[1..])
  }

  /** `s.split()`: the maximal runs of non-whitespace characters of `s`, in order. */
  function Split(s: string): (r: seq<string>)
    ensures forall i :: 0 <= i < |r| ==> IsToken(r[i])
    ensures Concat(r) == NonSpace(s)
  {
    SplitFrom(s, "")
  }

  /** `Split` once the characters of `cur` have been read as the start of a token. */
  function SplitFrom(s: string, cur: string): (r: seq<string>)
    requires forall k :: 0 <= k < |cur| ==> !IsSpace(cur[k])
    ensures forall i :: 0 <= i < |r| ==> IsToken(r[i])
    ensures Concat(r) == cur + NonSpace(s)
    decreases |s|
  {
    if s == [] then
      (if cur == [] then [] else [cur])
    else if IsSpace(s[0]) then
      var rest := SplitFrom(s[1..], "");
      assert NonSpace(s) == NonSpace(s[1..]);
      if cur == [] then
        assert [] + rest == rest;
        rest
      else
        assert Concat([cur] + rest) == cur + Concat(rest) by {
          assert ([cur] + rest)[1..] == rest;
        }
        [cur] + rest
    else
      SplitFrom(s[1..], cur + [s[0]])
  }

  /** A whole token is one piece: `str.split()` never cuts a run of non-whitespace. */
  lemma {:induction false} SplitOfToken(t: string)
    requires IsToken(t)
    ensures Split(t) == [t]
  {
    SplitFromRun(t, "", "");
    assert t + "" == t;
    assert "" + t == t;
  }

  /** Whitespace in front of the text is skipped. */
  lemma SplitSkipsSpace(c: char, s: string)
    requires IsSpace(c)
    ensures Split([c] + s) == Split(s)
  {
    assert ([c] + s)[1..] == s;
  }

  /** A token followed by whitespace is the first piece, and the rest is split on its own. */
  lemma {:induction false} SplitOfTokenThenSpace(t: string, c: char, s: string)
    requires IsToken(t) && IsSpace(c)
    ensures Split(t + [c] + s) == [t] + Split(s)
  {
    SplitFromRun(t, [c] + s, "");
    assert t + [c] + s == t + ([c] + s);
    assert "" + t == t;
    assert ([c] + s)[1..] == s;
  }

  /** Reading a run of non-whitespace only extends the token being read. */
  lemma {:induction false} SplitFromRun(t: string, rest: string, cur: string)
    requires forall k :: 0 <= k < |cur| ==> !IsSpace(cur[k])
    requires forall k :: 0 <= k < |t| ==> !IsSpace(t[k])
    ensures SplitFrom(t + rest, cur) == SplitFrom(rest, cur + t)
    decreases |t|
  {
    if t == [] {
      assert t + rest == rest;
      assert cur + t == cur;
    } else {
      assert (t + rest)[0] == t[0];
      assert (t + rest)[1..] == t[1..] + rest;
      SplitFromRun(t[1..], rest, cur + [t[0]]);
      assert cur + [t[0]] + t[1..] == cur + t;
    }
  }

  /** A text of whitespace only splits into no tokens at all. */
  lemma {:induction false} SplitOfBlank(s: string)
    requires forall k :: 0 <= k < |s| ==> IsSpace(s[k])
    ensures Split(s) == []
  {
    NonSpaceOfBlank(s);
  }

  lemma {:induction false} NonSpaceOfBlank(s: string)
    requires forall k :: 0 <= k < |s| ==> IsSpace(s[k])
    ensures NonSpace(s) == []
    decreases |s|
  {
    if s != [] {
      NonSpaceOfBlank(s[1..]);
    }
  }

  /** `s.find(c)`: the index of the first `c` in `s`, or -1 when there is none. */
  function Find(s: string, c: char): (r: int)
    ensures r == -1 <==> c !in s
    ensures r != -1 ==> 0 <= r < |s| && s[r] == c && forall k :: 0 <= k < r ==> s[k] != c
  {
    if s == [] then -1
    else if s[0] == c then 0
    else
      var r := Find(s[1..], c);
      if r == -1 then -1 else r + 1
  }

  /** `s.replace(from, to)` for one-character `from` and `to`. */
  function Replace(s: string, from: char, to: char): (r: string)
    ensures |r| == |s|
    ensures forall k :: 0 <= k < |s| ==> r[k] == if s[k] == from then to else s[k]
  {
    seq(|s|, k requires 0 <= k < |s| => if s[k] == from then to else s[k])
  }

  /** `s.split(', ')`: the pieces of `s` between the occurrences of `", "`, read from the left. */
  function SplitOnCommaSpace(s: string): (r: seq<string>)
    ensures |r| > 0
    decreases |s|
  {
    if |s| >= 2 && s[0] == ',' && s[1] == ' ' then [""] + SplitOnCommaSpace(s[2..])
    else if s == [] then [""]
    else
      var rest := SplitOnCommaSpace(s[1..]);
      [[s[0]] + rest[0]] + rest[1..]
  }

  /** A piece without a comma followed by `", "` splits off as the first piece. */
  lemma {:induction false} SplitOnCommaSpaceFirst(w: string, rest: string)
    requires ',' !in w
    ensures SplitOnCommaSpace(w + ", " + rest) == [w] + SplitOnCommaSpace(rest)
    decreases |w|
  {
    var s := w + ", " + rest;
    if w == [] {
      assert s[2..] == rest;
    } else {
      assert s[1..] == w[1..] + ", " + rest;
      SplitOnCommaSpaceFirst(w[1..], rest);
      assert [w[0]] + w[1..] == w;
    }
  }

  /** A string without a comma does not split. */
  lemma {:induction false} SplitOnCommaSpaceWhole(w: string)
    requires ',' !in w
    ensures SplitOnCommaSpace(w) == [w]
    decreases |w|
  {
    if w != [] {
      SplitOnCommaSpaceWhole(w[1..]);
      assert [w[0]] + w[1..] == w;
    }
  }
}
