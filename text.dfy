/** Text preprocessing: the line normalisation of the ingest loop, the newline
    replacement done before every embedding request, and the NUL stripping done
    before every insert. */
module Text {

  /** Python's `str.isspace()`: the characters `str.strip()` removes and that
      `\s` matches in a `re` pattern over `str`. */
  predicate IsSpace(c: char)
  {
    c == ' ' || ('\t' <= c <= '\r') || ('\U{1C}' <= c <= '\U{1F}')
    || c == '\U{85}' || c == '\U{A0}' || c == '\U{1680}'
    || ('\U{2000}' <= c <= '\U{200A}') || c == '\U{2028}' || c == '\U{2029}'
    || c == '\U{202F}' || c == '\U{205F}' || c == '\U{3000}'
  }

  /** No whitespace at either end. */
  predicate Trimmed(s: string)
  {
    s == [] || (!IsSpace(s[0]) && !IsSpace(s[|s| - 1]))
  }

  /** No two whitespace characters next to each other. */
  predicate NoRuns(s: string)
  {
    forall i :: 0 <= i < |s| - 1 ==> !(IsSpace(s[i]) && IsSpace(s[i + 1]))
  }

  /** The only whitespace character that occurs is the blank. */
  predicate BlanksOnly(s: string)
  {
    forall i :: 0 <= i < |s| && IsSpace(s[i]) ==> s[i] == ' '
  }

  /** What a normalised line looks like. */
  predicate IsNormal(s: string)
  {
    Trimmed(s) && NoRuns(s) && BlanksOnly(s)
  }

  /** The non-whitespace characters of `s`, in order. */
  function Visible(s: string): string
  {
    if s == [] then [] else (if IsSpace(s[0]) then [] else [s[0]]) + Visible(s[1..])
  }

  /** Removes the longest whitespace prefix. */
  function TrimStart(s: string): (r: string)
    ensures |r| <= |s|
  {
    if s != [] && IsSpace(s[0]) then TrimStart(s[1..]) else s
  }

  /** `TrimStart` removes a prefix made of whitespace only, and the longest
      such prefix. */
  lemma {:induction false} TrimStartSpec(s: string)
    ensures TrimStart(s) == s[|s| - |TrimStart(s)|..]
    ensures TrimStart(s) == [] || !IsSpace(TrimStart(s)[0])
    ensures forall i :: 0 <= i < |s| - |TrimStart(s)| ==> IsSpace(s[i])
    decreases |s|
  {
    if s != [] && IsSpace(s[0]) {
      TrimStartSpec(s[1..]);
    }
  }

  /** Removes the longest whitespace suffix. */
  function TrimEnd(s: string): (r: string)
    ensures |r| <= |s|
  {
    if s != [] && IsSpace(s[|s| - 1]) then TrimEnd(s[..|s| - 1]) else s
  }

  /** `TrimEnd` removes a suffix made of whitespace only, and the longest
      such suffix. */
  lemma {:induction false} TrimEndSpec(s: string)
    ensures TrimEnd(s) == s[..|TrimEnd(s)|]
    ensures TrimEnd(s) == [] || !IsSpace(TrimEnd(s)[|TrimEnd(s)| - 1])
    ensures forall i :: |TrimEnd(s)| <= i < |s| ==> IsSpace(s[i])
    decreases |s|
  {
    if s != [] && IsSpace(s[|s| - 1]) {
      TrimEndSpec(s[..|s| - 1]);
    }
  }

  /** `str.strip()` with no argument. */
  function Strip(s: string): string
  {
    TrimEnd(TrimStart(s))
  }

  /** `Strip` leaves no whitespace at either end. */
  lemma StripTrimmed(s: string)
    ensures Trimmed(Strip(s))
  {
    TrimStartSpec(s);
    TrimEndSpec(TrimStart(s));
  }

  /** `re.sub(r'\s+', ' ', s)`: every maximal run of whitespace becomes a
      single blank. */
  function Collapse(s: string): string
    decreases |s|
  {
    if s == [] then []
    else if IsSpace(s[0]) then
      var rest := TrimStart(s);
      assert |rest| < |s|;
      [' '] + Collapse(rest)
    else
      [s[0]] + Collapse(s[1..])
  }

  /** What `Collapse` produces: no whitespace runs, no whitespace but the
      blank, empty exactly when its argument is, and the argument's first and
      last characters kept when they are visible. */
  lemma {:induction false} CollapseSpec(s: string)
    ensures NoRuns(Collapse(s)) && BlanksOnly(Collapse(s))
    ensures (Collapse(s) == []) == (s == [])
    ensures s != [] && !IsSpace(s[0]) ==> Collapse(s)[0] == s[0]
    ensures s != [] && !IsSpace(s[|s| - 1]) ==> Collapse(s)[|Collapse(s)| - 1] == s[|s| - 1]
    decreases |s|
  {
    if s != [] {
      if IsSpace(s[0]) {
        var rest := TrimStart(s);
        TrimStartSpec(s);
        CollapseSpec(rest);
        if !IsSpace(s[|s| - 1]) {
          assert rest != [];
          assert rest[|rest| - 1] == s[|s| - 1];
        }
      } else {
        CollapseSpec(s[1..]);
      }
    }
  }

  /** The line normalisation of the ingest loop (main.py:168) in one pass:
      whitespace before the first visible character is dropped, a run of
      whitespace between two visible characters becomes one blank, and
      whitespace after the last one is dropped. `NormalizeIsStripCollapse`
      shows it is `Collapse(Strip(line))`, which is how the source writes it. */
  function Normalize(line: string): (r: string)
  {
    Squeeze(line, false, false)
  }

  /** The rest of a line being normalised: `started` says whether a visible
      character has been emitted, `pending` whether whitespace has been seen
      since the last one. */
  function Squeeze(s: string, started: bool, pending: bool): (r: string)
  {
    if s == [] then []
    else if IsSpace(s[0]) then Squeeze(s[1..], started, started)
    else (if pending then " " else "") + [s[0]] + Squeeze(s[1..], true, false)
  }

  lemma {:induction false} TrimEndCons(c: char, t: string)
    ensures TrimEnd([c] + t) == if IsSpace(c) && TrimEnd(t) == [] then [] else [c] + TrimEnd(t)
    decreases |t|
  {
    if t != [] {
      var t' := t[..|t| - 1];
      assert ([c] + t)[..|[c] + t| - 1] == [c] + t';
      if IsSpace(t[|t| - 1]) {
        TrimEndCons(c, t');
      }
    }
  }

  lemma CollapseCons(c: char, t: string)
    ensures Collapse([c] + t) == if IsSpace(c) then " " + Collapse(TrimStart(t)) else [c] + Collapse(t)
  {
    assert ([c] + t)[1..] == t;
  }

  /** Collapsing a trimmed-at-the-end text that starts with whitespace. */
  lemma SpaceCons(c: char, t: string)
    requires IsSpace(c)
    ensures Collapse(TrimEnd([c] + t))
            == if TrimEnd(t) == [] then [] else " " + Collapse(TrimStart(TrimEnd(t)))
  {
    TrimEndCons(c, t);
    if TrimEnd(t) != [] {
      CollapseCons(c, TrimEnd(t));
    }
  }

  /** Whitespace in front of whitespace adds nothing once collapsed. */
  lemma PendingSpace(s: string, pending: bool)
    requires s != [] && IsSpace(s[0])
    ensures Collapse(TrimEnd((if pending then " " else "") + s)) == Collapse(TrimEnd(" " + s[1..]))
  {
    assert s == [s[0]] + s[1..];
    SpaceCons(' ', s[1..]);
    TrimEndCons(s[0], s[1..]);
    if pending {
      SpaceCons(' ', s);
    } else {
      assert "" + s == [s[0]] + s[1..];
      SpaceCons(s[0], s[1..]);
    }
  }

  /** Text starting with a visible character keeps it in front. */
  lemma VisibleFront(s: string)
    requires s != [] && !IsSpace(s[0])
    ensures Collapse(TrimEnd(s)) == [s[0]] + Collapse(TrimEnd(s[1..]))
  {
    assert s == [s[0]] + s[1..];
    TrimEndCons(s[0], s[1..]);
    CollapseCons(s[0], TrimEnd(s[1..]));
  }

  /** Whitespace in front of a visible character collapses to one blank. */
  lemma PendingVisible(s: string)
    requires s != [] && !IsSpace(s[0])
    ensures Collapse(TrimEnd(" " + s)) == " " + Collapse(TrimEnd(s))
  {
    assert s == [s[0]] + s[1..];
    TrimEndCons(s[0], s[1..]);
    TrimEndCons(' ', s);
    CollapseCons(' ', TrimEnd(s));
    assert TrimStart(TrimEnd(s)) == TrimEnd(s);
  }

  lemma StartedSpace(s: string, pending: bool)
    requires s != [] && IsSpace(s[0])
    requires Squeeze(s[1..], true, true) == Collapse(TrimEnd(" " + s[1..]))
    ensures Squeeze(s, true, pending) == Collapse(TrimEnd((if pending then " " else "") + s))
  {
    PendingSpace(s, pending);
  }

  lemma StartedVisible(s: string, pending: bool)
    requires s != [] && !IsSpace(s[0])
    requires Squeeze(s[1..], true, false) == Collapse(TrimEnd(s[1..]))
    ensures Squeeze(s, true, pending) == Collapse(TrimEnd((if pending then " " else "") + s))
  {
    VisibleFront(s);
    if pending {
      PendingVisible(s);
    } else {
      assert "" + s == s;
    }
  }

  /** Once a visible character has been emitted, `Squeeze` is `Collapse`
      after `TrimEnd`, with the pending whitespace put back in front. */
  lemma {:induction false} SqueezeStarted(s: string, pending: bool)
    ensures Squeeze(s, true, pending) == Collapse(TrimEnd((if pending then " " else "") + s))
    decreases |s|
  {
    if s == [] {
      assert (if pending then " " else "") + s == (if pending then " " else "");
    } else if IsSpace(s[0]) {
      SqueezeStarted(s[1..], true);
      StartedSpace(s, pending);
    } else {
      SqueezeStarted(s[1..], false);
      assert "" + s[1..] == s[1..];
      StartedVisible(s, pending);
    }
  }

  /** The one-pass normalisation is the source's `strip()` followed by
      `re.sub(r'\s+', ' ', ...)`. */
  lemma {:induction false} SqueezeIsStripCollapse(s: string)
    ensures Squeeze(s, false, false) == Collapse(Strip(s))
    decreases |s|
  {
    if s != [] {
      if IsSpace(s[0]) {
        SqueezeIsStripCollapse(s[1..]);
      } else {
        SqueezeStarted(s[1..], false);
        assert "" + s[1..] == s[1..];
        VisibleFront(s);
      }
    }
  }

  lemma NormalizeIsStripCollapse(line: string)
    ensures Normalize(line) == Collapse(Strip(line))
  {
    SqueezeIsStripCollapse(line);
  }

  /** A normalised line has no whitespace at either end, no two whitespace
      characters in a row, and no whitespace but the blank. */
  lemma NormalizeIsNormal(line: string)
    ensures IsNormal(Normalize(line))
  {
    NormalizeIsStripCollapse(line);
    StripTrimmed(line);
    CollapseSpec(Strip(line));
  }

  lemma {:induction false} CollapseFixesNoRuns(s: string)
    requires NoRuns(s) && BlanksOnly(s)
    ensures Collapse(s) == s
    decreases |s|
  {
    if s != [] {
      assert NoRuns(s[1..]) && BlanksOnly(s[1..]);
      CollapseFixesNoRuns(s[1..]);
      if IsSpace(s[0]) {
        assert |s| > 1 ==> !IsSpace(s[1]);
        assert TrimStart(s) == s[1..];
        assert s == [' '] + s[1..];
      } else {
        assert s == [s[0]] + s[1..];
      }
    }
  }

  lemma StripFixesTrimmed(s: string)
    requires Trimmed(s)
    ensures Strip(s) == s
  {
  }

  /** Normalising a normalised line changes nothing. */
  lemma NormalizeIdempotent(line: string)
    ensures Normalize(Normalize(line)) == Normalize(line)
  {
    var n := Normalize(line);
    NormalizeIsNormal(line);
    NormalizeIsStripCollapse(line);
    NormalizeIsStripCollapse(n);
    StripFixesTrimmed(n);
    CollapseFixesNoRuns(n);
  }

  lemma {:induction false} VisibleAppend(a: string, b: string)
    ensures Visible(a + b) == Visible(a) + Visible(b)
    decreases |a|
  {
    if a != [] {
      assert (a + b)[1..] == a[1..] + b;
      VisibleAppend(a[1..], b);
    } else {
      assert a + b == b;
    }
  }

  lemma {:induction false} VisibleOfSpaces(s: string)
    requires forall i :: 0 <= i < |s| ==> IsSpace(s[i])
    ensures Visible(s) == []
    decreases |s|
  {
    if s != [] {
      VisibleOfSpaces(s[1..]);
    }
  }

  lemma {:induction false} VisibleTrimStart(s: string)
    ensures Visible(TrimStart(s)) == Visible(s)
    decreases |s|
  {
    if s != [] && IsSpace(s[0]) {
      VisibleTrimStart(s[1..]);
    }
  }

  lemma VisibleTrimEnd(s: string)
    ensures Visible(TrimEnd(s)) == Visible(s)
  {
    var r := TrimEnd(s);
    TrimEndSpec(s);
    var tail := s[|r|..];
    assert s == r + tail;
    VisibleAppend(r, tail);
    VisibleOfSpaces(tail);
  }

  lemma {:induction false} VisibleCollapse(s: string)
    ensures Visible(Collapse(s)) == Visible(s)
    decreases |s|
  {
    if s != [] {
      if IsSpace(s[0]) {
        var rest := TrimStart(s);
        VisibleCollapse(rest);
        VisibleTrimStart(s);
        assert ([' '] + Collapse(rest))[1..] == Collapse(rest);
      } else {
        VisibleCollapse(s[1..]);
        assert ([s[0]] + Collapse(s[1..]))[1..] == Collapse(s[1..]);
      }
    }
  }

  /** Normalisation only ever removes or rewrites whitespace: the visible
      characters of the line survive unchanged and in order. */
  lemma NormalizeKeepsVisible(line: string)
    ensures Visible(Normalize(line)) == Visible(line)
  {
    NormalizeIsStripCollapse(line);
    VisibleTrimStart(line);
    VisibleTrimEnd(TrimStart(line));
    VisibleCollapse(Strip(line));
  }

  /** `text.replace("\n", " ")` before an embedding request (main.py:80,
      test_pg.py:66). */
  function ReplaceNewlines(text: string): string
  {
    if text == [] then [] else [if text[0] == '\n' then ' ' else text[0]] + ReplaceNewlines(text[1..])
  }

  /** The replacement keeps the length, turns each newline into one blank,
      leaves every other character in place, and so leaves no newline. */
  lemma {:induction false} ReplaceNewlinesSpec(text: string)
    ensures |ReplaceNewlines(text)| == |text|
    ensures '\n' !in ReplaceNewlines(text)
    ensures forall i :: 0 <= i < |text| ==>
              ReplaceNewlines(text)[i] == (if text[i] == '\n' then ' ' else text[i])
    decreases |text|
  {
    if text != [] {
      ReplaceNewlinesSpec(text[1..]);
    }
  }

  /** Replacing newlines a second time changes nothing. */
  lemma ReplaceNewlinesIdempotent(text: string)
    ensures ReplaceNewlines(ReplaceNewlines(text)) == ReplaceNewlines(text)
  {
    var r := ReplaceNewlines(text);
    ReplaceNewlinesSpec(text);
    ReplaceNewlinesSpec(r);
  }

  /** `content.replace('\x00', '')` before an insert (main.py:98). */
  function RemoveNul(s: string): string
  {
    if s == [] then [] else (if s[0] == '\0' then [] else [s[0]]) + RemoveNul(s[1..])
  }

  /** No NUL is left, every other character keeps its number of occurrences,
      and a text without NUL is left as it is. */
  lemma {:induction false} RemoveNulSpec(s: string)
    ensures '\0' !in RemoveNul(s)
    ensures multiset(RemoveNul(s)) == multiset(s)['\0' := 0]
    ensures '\0' !in s ==> RemoveNul(s) == s
    decreases |s|
  {
    if s != [] {
      RemoveNulSpec(s[1..]);
      assert s == [s[0]] + s[1..];
      assert multiset(s) == multiset([s[0]]) + multiset(s[1..]);
      assert RemoveNul(s) == (if s[0] == '\0' then [] else [s[0]]) + RemoveNul(s[1..]);
    }
  }

  /** NUL stripping keeps the other characters in their order. */
  lemma {:induction false} RemoveNulAppend(a: string, b: string)
    ensures RemoveNul(a + b) == RemoveNul(a) + RemoveNul(b)
    decreases |a|
  {
    if a != [] {
      assert (a + b)[1..] == a[1..] + b;
      RemoveNulAppend(a[1..], b);
    } else {
      assert a + b == b;
    }
  }

  /** Strings joined with no separator, as `chunk_content += str` does. */
  function Concat(strs: seq<string>): string
  {
    if strs == [] then [] else Concat(strs[..|strs| - 1]) + strs[|strs| - 1]
  }

  /** Joining is compatible with splitting the list anywhere. */
  lemma {:induction false} ConcatAppend(a: seq<string>, b: seq<string>)
    ensures Concat(a + b) == Concat(a) + Concat(b)
    decreases |b|
  {
    if b == [] {
      assert a + b == a;
    } else {
      var b', last := b[..|b| - 1], b[|b| - 1];
      assert (a + b)[..|a + b| - 1] == a + b';
      assert (a + b)[|a + b| - 1] == last;
      ConcatAppend(a, b');
      calc {
        Concat(a + b);
        Concat(a + b') + last;
        Concat(a) + Concat(b') + last;
        Concat(a) + (Concat(b') + last);
      }
    }
  }

  /** A single string joins to itself. */
  lemma ConcatSingle(s: string)
    ensures Concat([s]) == s
  {
    assert [s][..0] == [];
  }
}
