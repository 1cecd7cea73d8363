/**
 * The element id the form controls derive from their label. `Input`,
 * `TextArea` and `Select` compute it with the same expression, so it is
 * defined once here.
 */
module Input {
  import opened Wrappers
  import opened Text

  /** `.replace(/\s+/g, "-")`: every maximal whitespace run becomes one hyphen. */
  function CollapseSpaces(s: string): (r: string)
    ensures forall i :: 0 <= i < |r| ==> !IsSpace(r[i])
    decreases |s|
  {
    if |s| == 0 then ""
    else if IsSpace(s[0]) then
      var rest := TrimStart(s);
      assert rest == s[|s| - |rest|..];
      "-" + CollapseSpaces(rest)
    else
      [s[0]] + CollapseSpaces(s[1..])
  }

  /** `label.toLowerCase().replace(/\s+/g, "-")`. */
  function Slug(caption: string): (r: string)
    ensures forall i :: 0 <= i < |r| ==> !IsSpace(r[i]) && !IsUpperAscii(r[i])
  {
    CollapseKeepsCase(LowerString(caption));
    CollapseSpaces(LowerString(caption))
  }

  /** `id || label?.toLowerCase().replace(/\s+/g, "-")`. */
  function InputId(id: Option<string>, caption: Option<string>): (r: Option<string>)
    ensures id.Some? && id.value != "" ==> r == id
    ensures (id.None? || id.value == "") && caption.None? ==> r.None?
    ensures (id.None? || id.value == "") && caption.Some? ==> r == Some(Slug(caption.value))
  {
    if id.Some? && id.value != "" then id
    else match caption
      case None => None
      case Some(l) => Some(Slug(l))
  }

  /** A word, one whitespace run, then text that starts with no whitespace: the run becomes one hyphen. */
  lemma CollapseRun(w: string, run: string, rest: string)
    requires forall i :: 0 <= i < |w| ==> !IsSpace(w[i])
    requires |run| > 0 && IsBlank(run)
    requires |rest| == 0 || !IsSpace(rest[0])
    ensures CollapseSpaces(w + run + rest) == w + "-" + CollapseSpaces(rest)
  {
    var t := run + rest;
    assert w + run + rest == w + t;
    CollapseKeepsWord(w, t);
    CollapseLeadingRun(run, rest);
    assert w + ("-" + CollapseSpaces(rest)) == w + "-" + CollapseSpaces(rest);
  }

  /** A leading whitespace run becomes one hyphen in front of the rest. */
  lemma CollapseLeadingRun(run: string, rest: string)
    requires |run| > 0 && IsBlank(run)
    requires |rest| == 0 || !IsSpace(rest[0])
    ensures CollapseSpaces(run + rest) == "-" + CollapseSpaces(rest)
  {
    TrimStartBlank(run, rest);
    assert TrimStart(rest) == rest;
    assert (run + rest)[0] == run[0];
  }

  /** Text without whitespace in front of anything is kept as it is. */
  lemma {:induction false} CollapseKeepsWord(w: string, t: string)
    requires forall i :: 0 <= i < |w| ==> !IsSpace(w[i])
    ensures CollapseSpaces(w + t) == w + CollapseSpaces(t)
    decreases |w|
  {
    if |w| == 0 {
      assert w + t == t;
    } else {
      var c, tail := w[0], w[1..];
      assert w + t == [c] + (tail + t);
      CollapseKeepsWord(tail, t);
      CollapseCons(c, tail + t);
      assert [c] + (tail + CollapseSpaces(t)) == w + CollapseSpaces(t);
    }
  }

  /** Collapsing adds only hyphens, so text without upper-case letters stays without them. */
  lemma {:induction false} CollapseKeepsCase(s: string)
    requires forall i :: 0 <= i < |s| ==> !IsUpperAscii(s[i])
    ensures forall i :: 0 <= i < |CollapseSpaces(s)| ==> !IsUpperAscii(CollapseSpaces(s)[i])
    decreases |s|
  {
    if |s| > 0 {
      if IsSpace(s[0]) {
        var rest := TrimStart(s);
        assert rest == s[|s| - |rest|..];
        CollapseKeepsCase(rest);
      } else {
        CollapseKeepsCase(s[1..]);
      }
    }
  }

  /** Text without whitespace is left as it is. */
  lemma CollapseNoSpace(s: string)
    requires forall i :: 0 <= i < |s| ==> !IsSpace(s[i])
    ensures CollapseSpaces(s) == s
  {
    CollapseKeepsWord(s, "");
    assert s + "" == s;
  }

  /** A character that is not whitespace is kept as it is. */
  lemma CollapseCons(c: char, t: string)
    requires !IsSpace(c)
    ensures CollapseSpaces([c] + t) == [c] + CollapseSpaces(t)
  {
    assert ([c] + t)[1..] == t;
  }

  /** A derived id is already its own slug, so deriving again changes nothing. */
  lemma SlugIdempotent(caption: string)
    ensures Slug(Slug(caption)) == Slug(caption)
  {
    var s := Slug(caption);
    assert LowerString(s) == s;
    CollapseNoSpace(s);
  }

  /** Two words around a whitespace run: lower-cased and joined by one hyphen. */
  lemma SlugTwoWords(a: string, run: string, b: string)
    requires forall i :: 0 <= i < |a| ==> !IsSpace(a[i])
    requires forall i :: 0 <= i < |b| ==> !IsSpace(b[i])
    requires |run| > 0 && IsBlank(run)
    ensures Slug(a + run + b) == LowerString(a) + "-" + LowerString(b)
  {
    LowerStringAppend(a + run, b);
    LowerStringAppend(a, run);
    LowerStringSpaces(a);
    LowerStringSpaces(run);
    LowerStringSpaces(b);
    CollapseRun(LowerString(a), run, LowerString(b));
    CollapseNoSpace(LowerString(b));
  }
}
