/** How the cart page splits a line's `name` into the text it shows and the
    colour it reports (app/cart/page.tsx:138-140). The colour is the content
    of a parenthesised group that ends the name, as the regular expression
    `/\(([^)]+)\)$/` finds it; the shown name is the name with the group that
    `/\([^)]*\)$/` finds replaced by nothing, then trimmed. A regular
    expression search tries start positions from the left, so both take the
    leftmost `(` from which a `)`-free run reaches the final `)`. */
module ItemName {
  import opened Common

  // ------------------------------------------------------------ trim

  /** The characters `String.prototype.trim` strips: the ECMAScript
      WhiteSpace and LineTerminator code points. */
  predicate IsWhitespace(c: char)
  {
    var n := c as int;
    n == 0x09 || n == 0x0A || n == 0x0B || n == 0x0C || n == 0x0D || n == 0x20 ||
    n == 0xA0 || n == 0x1680 || (0x2000 <= n <= 0x200A) || n == 0x2028 || n == 0x2029 ||
    n == 0x202F || n == 0x205F || n == 0x3000 || n == 0xFEFF
  }

  /** Drop leading white space. */
  function TrimStart(s: string): (r: string)
    ensures |r| <= |s| && r == s[|s| - |r|..]
    ensures forall k :: 0 <= k < |s| - |r| ==> IsWhitespace(s[k])
    ensures r == [] || !IsWhitespace(r[0])
    decreases |s|
  {
    if s != [] && IsWhitespace(s[0]) then
      var r := TrimStart(s[1..]);
      assert s[1..][|s| - 1 - |r|..] == s[|s| - |r|..];
      assert forall k :: 1 <= k < |s| - |r| ==> s[k] == s[1..][k - 1];
      r
    else
      s
  }

  /** Drop trailing white space. */
  function TrimEnd(s: string): (r: string)
    ensures |r| <= |s| && r == s[..|r|]
    ensures forall k :: |r| <= k < |s| ==> IsWhitespace(s[k])
    ensures r == [] || !IsWhitespace(r[|r| - 1])
    decreases |s|
  {
    if s != [] && IsWhitespace(s[|s| - 1]) then
      var r := TrimEnd(s[..|s| - 1]);
      assert s[..|s| - 1][..|r|] == s[..|r|];
      assert forall k :: |r| <= k < |s| - 1 ==> s[k] == s[..|s| - 1][k];
      r
    else
      s
  }

  /** `r` is `s` from position `i` on with a white-space tail cut, and all
      of `s` before `i` is white space. */
  predicate CutFrom(s: string, r: string, i: int)
  {
    && 0 <= i <= |s| && r <= s[i..]
    && (forall k :: 0 <= k < i ==> IsWhitespace(s[k]))
    && (forall k :: i + |r| <= k < |s| ==> IsWhitespace(s[k]))
  }

  /** `trim()`: the longest middle part of `s` with white space on neither
      side; everything cut off is white space. */
  function Trim(s: string): (r: string)
    ensures exists i :: CutFrom(s, r, i)
    ensures r == [] || (!IsWhitespace(r[0]) && !IsWhitespace(r[|r| - 1]))
  {
    var r := TrimEnd(TrimStart(s));
    TrimBothEnds(s);
    assert CutFrom(s, r, |s| - |TrimStart(s)|);
    r
  }

  lemma {:induction false} TrimBothEnds(s: string)
    ensures CutFrom(s, TrimEnd(TrimStart(s)), |s| - |TrimStart(s)|)
    ensures var r := TrimEnd(TrimStart(s));
            r == [] || (!IsWhitespace(r[0]) && !IsWhitespace(r[|r| - 1]))
  {
    var t := TrimStart(s);
    var r := TrimEnd(t);
    var i := |s| - |t|;
    assert t == s[i..] && r == t[..|r|];
    forall k | i + |r| <= k < |s| ensures IsWhitespace(s[k]) {
      assert s[k] == t[k - i];
    }
    if r != [] {
      assert r[0] == t[0];
    }
  }

  /** Trimming a trimmed string changes nothing. */
  lemma {:induction false} TrimIdempotent(s: string)
    ensures Trim(Trim(s)) == Trim(s)
  {
    var r := Trim(s);
    assert TrimStart(r) == r;
    assert TrimEnd(r) == r;
  }

  // ------------------------------------------------------------ trailing group

  /** A match of `\([^)]*\)$` starting at `p`: a `(` there, a `)` as the last
      character, and no `)` in between. */
  predicate GroupAt(name: string, p: int)
  {
    && 0 <= p < |name| - 1
    && name[p] == '(' && name[|name| - 1] == ')'
    && forall k :: p < k < |name| - 1 ==> name[k] != ')'
  }

  /** The leftmost start at or after `from` of a trailing group. */
  function FirstGroupFrom(name: string, from: nat): (r: Option<nat>)
    ensures r.Some? ==> from <= r.value && GroupAt(name, r.value) &&
                        forall q :: from <= q < r.value ==> !GroupAt(name, q)
    ensures r.None? ==> forall q :: from <= q < |name| ==> !GroupAt(name, q)
    decreases |name| - from
  {
    if from >= |name| then None
    else if GroupAt(name, from) then Some(from)
    else FirstGroupFrom(name, from + 1)
  }

  /** Where the regular expression search finds the trailing group, if any. */
  function GroupStart(name: string): (r: Option<nat>)
    ensures r.Some? ==> GroupAt(name, r.value) && forall q :: 0 <= q < r.value ==> !GroupAt(name, q)
    ensures r.None? <==> forall q :: 0 <= q < |name| ==> !GroupAt(name, q)
  {
    FirstGroupFrom(name, 0)
  }

  /** `colorName`: the capture of `/\(([^)]+)\)$/`, or nothing. The `+`
      refuses an empty group, so a name ending in `()` with no earlier
      candidate has no colour. */
  function ColorName(name: string): (r: Option<string>)
    ensures r.None? <==> forall p :: 0 <= p < |name| - 2 ==> !GroupAt(name, p)
    ensures r.Some? ==> exists p :: 0 <= p < |name| - 2 && GroupAt(name, p) &&
                          r.value == name[p + 1..|name| - 1] &&
                          forall q :: 0 <= q < p ==> !GroupAt(name, q)
    ensures r.Some? ==> r.value != [] && ')' !in r.value
  {
    match GroupStart(name)
    case None => None
    case Some(p) =>
      if p < |name| - 2 then
        var x := name[p + 1..|name| - 1];
        assert ')' !in x by {
          forall i | 0 <= i < |x| ensures x[i] != ')' {
            assert x[i] == name[p + 1 + i];
          }
        }
        Some(x)
      else
        None
  }

  /** `displayName`: the name with its trailing group (empty or not) cut off,
      then trimmed. Without a group, `r` is `name` less white space at both
      ends; with one, it is the part before the leftmost group less white
      space at both ends. */
  function DisplayName(name: string): (r: string)
    ensures (forall q :: 0 <= q < |name| ==> !GroupAt(name, q)) ==>
              exists i :: CutFrom(name, r, i)
    ensures forall p :: LeftmostGroup(name, p) ==> exists i :: CutFrom(name[..p], r, i)
    ensures r == [] || (!IsWhitespace(r[0]) && !IsWhitespace(r[|r| - 1]))
  {
    match GroupStart(name)
    case None => Trim(name)
    case Some(p) =>
      LeftmostGroupUnique(name, p);
      Trim(name[..p])
  }

  /** A trailing group starts at `p` and at no earlier position. */
  predicate LeftmostGroup(name: string, p: int)
  {
    GroupAt(name, p) && forall q :: 0 <= q < p ==> !GroupAt(name, q)
  }

  lemma {:induction false} LeftmostGroupUnique(name: string, p: int)
    requires LeftmostGroup(name, p)
    ensures forall q :: LeftmostGroup(name, q) ==> q == p
  {
  }

  // ------------------------------------------------------------ round trips

  /** Every `(` of `base` is closed later in `base`: no trailing group can
      start inside it. */
  predicate ClosedGroups(base: string)
  {
    forall k :: 0 <= k < |base| && base[k] == '(' ==> ')' in base[k + 1..]
  }

  /** In `base + "(" + x + ")"` the group starts right after `base`. */
  lemma {:induction false} LabelledGroupStart(base: string, x: string)
    requires ')' !in x && ClosedGroups(base)
    ensures GroupStart(base + "(" + x + ")") == Some(|base|)
  {
    var name := base + "(" + x + ")";
    var p := |base|;
    assert name[p] == '(' && name[|name| - 1] == ')';
    forall k | p < k < |name| - 1 ensures name[k] != ')' {
      assert name[k] == x[k - p - 1];
    }
    assert GroupAt(name, p);
    forall q | 0 <= q < p ensures !GroupAt(name, q) {
      if name[q] == '(' {
        assert base[q] == '(';
        var j :| 0 <= j < |base[q + 1..]| && base[q + 1..][j] == ')';
        assert name[q + 1 + j] == ')';
      }
    }
  }

  /** A name built as `base(x)` reports the colour `x`. */
  lemma {:induction false} ColorOfLabelled(base: string, x: string)
    requires x != [] && ')' !in x && ClosedGroups(base)
    ensures ColorName(base + "(" + x + ")") == Some(x)
  {
    var name := base + "(" + x + ")";
    LabelledGroupStart(base, x);
    assert name[|base| + 1..|name| - 1] == x;
  }

  /** A name built as `base(x)` displays as the trimmed `base`. */
  lemma {:induction false} DisplayOfLabelled(base: string, x: string)
    requires ')' !in x && ClosedGroups(base)
    ensures DisplayName(base + "(" + x + ")") == Trim(base)
  {
    var name := base + "(" + x + ")";
    LabelledGroupStart(base, x);
    assert name[..|base|] == base;
  }

  /** A name that does not end in `)` has no colour and displays trimmed. */
  lemma {:induction false} PlainName(name: string)
    requires name == [] || name[|name| - 1] != ')'
    ensures ColorName(name) == None
    ensures DisplayName(name) == Trim(name)
  {
  }

  /** The colour rule does not know what the brackets hold: a name that
      carried a year in brackets, such as "Dell XPS 15 (2024)", would report
      the year as its colour. */
  lemma {:induction false} YearReadsAsColor()
    ensures ColorName("Dell XPS 15 " + "(" + "2024" + ")") == Some("2024")
  {
    assert ClosedGroups("Dell XPS 15 ");
    ColorOfLabelled("Dell XPS 15 ", "2024");
  }
}
