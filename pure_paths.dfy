/**
 * The part of pathlib's PurePosixPath that the dotfile manager relies on:
 * parsing text into a path and printing it back, joining with `/`, the
 * `name`, `suffix` and `stem` of the last component, `with_suffix`, and the
 * lexical normalisation that `resolve()` performs on `.` and `..`.
 */
module PurePaths {
  import opened Wrappers

  /** A pure path: whether it is anchored at "/", and its components. */
  datatype Path = Path(absolute: bool, parts: seq<string>)

  /** A component as pathlib keeps it: non-empty, not ".", no separator. */
  predicate ValidComponent(c: string)
  {
    c != "" && c != "." && '/' !in c
  }

  /** A component that names an entry: valid and not "..". */
  predicate NormalComponent(c: string)
  {
    ValidComponent(c) && c != ".."
  }

  predicate WellFormed(p: Path)
  {
    forall i :: 0 <= i < |p.parts| ==> ValidComponent(p.parts[i])
  }

  /** Components of an absolute path that has no "." or ".." left in it. */
  predicate Normal(cs: seq<string>)
  {
    forall i :: 0 <= i < |cs| ==> NormalComponent(cs[i])
  }

  // ---------------------------------------------------------------- text

  /** The pieces of `s` between separators, as `s.split('/')` gives them. */
  function Split(s: string): (r: seq<string>)
    ensures |r| >= 1
    ensures forall i :: 0 <= i < |r| ==> '/' !in r[i]
  {
    if s == [] then [""]
    else
      var rest := Split(s[1..]);
      if s[0] == '/' then [""] + rest else [[s[0]] + rest[0]] + rest[1..]
  }

  /** The components joined by separators, as `'/'.join(cs)` gives them. */
  function JoinParts(cs: seq<string>): string
  {
    if |cs| == 0 then ""
    else if |cs| == 1 then cs[0]
    else cs[0] + "/" + JoinParts(cs[1..])
  }

  /** The pieces that pathlib keeps: empty pieces and "." are dropped. */
  function DropEmpty(cs: seq<string>): (r: seq<string>)
    ensures forall i :: 0 <= i < |r| ==> r[i] != "" && r[i] != "." && r[i] in cs
  {
    if cs == [] then []
    else (if cs[0] == "" || cs[0] == "." then [] else [cs[0]]) + DropEmpty(cs[1..])
  }

  /** `Path(s)`: the path that a text denotes. */
  function Parse(s: string): (p: Path)
    ensures WellFormed(p)
    ensures p.absolute <==> |s| > 0 && s[0] == '/'
  {
    Path(|s| > 0 && s[0] == '/', DropEmpty(Split(s)))
  }

  /** `str(p)`: the text of a path; the empty relative path prints as ".". */
  function Show(p: Path): string
  {
    if p.absolute then "/" + JoinParts(p.parts)
    else if p.parts == [] then "."
    else JoinParts(p.parts)
  }

  /** A text that `str(Path(s))` gives back unchanged. */
  predicate CanonicalText(s: string)
  {
    s == "." || s == "/" || AllValid(Split(Body(s)))
  }

  /** The text after a leading separator, if any. */
  function Body(s: string): string
  {
    if |s| > 0 && s[0] == '/' then s[1..] else s
  }

  predicate AllValid(cs: seq<string>)
  {
    forall i :: 0 <= i < |cs| ==> ValidComponent(cs[i])
  }

  lemma {:induction false} SplitPrefix(a: string, t: string)
    requires '/' !in a
    ensures Split(a + t) == [a + Split(t)[0]] + Split(t)[1..]
  {
    if a != [] {
      assert (a + t)[1..] == a[1..] + t;
      assert '/' !in a[1..] by {
        forall j | 0 <= j < |a[1..]| ensures a[1..][j] != '/' { assert a[1..][j] == a[j + 1]; }
      }
      SplitPrefix(a[1..], t);
      var r := Split(a[1..] + t);
      assert r[0] == a[1..] + Split(t)[0];
      assert r[1..] == Split(t)[1..];
      assert (a + t)[0] == a[0];
      assert [a[0]] + (a[1..] + Split(t)[0]) == a + Split(t)[0];
    } else {
      assert a + t == t;
      assert "" + Split(t)[0] == Split(t)[0];
      assert [Split(t)[0]] + Split(t)[1..] == Split(t);
    }
  }

  lemma SplitDot()
    ensures Split(".") == ["."]
  {
    assert "."[1..] == "";
    assert Split("") == [""];
    assert ['.'] + "" == ".";
  }

  lemma {:induction false} SplitJoin(cs: seq<string>)
    requires |cs| >= 1
    requires forall i :: 0 <= i < |cs| ==> '/' !in cs[i]
    ensures Split(JoinParts(cs)) == cs
  {
    if |cs| == 1 {
      SplitPrefix(cs[0], "");
      assert cs[0] + "" == cs[0];
    } else {
      var tail := JoinParts(cs[1..]);
      SplitJoin(cs[1..]);
      assert Split("/" + tail) == [""] + Split(tail) by {
        assert ("/" + tail)[1..] == tail;
      }
      assert cs[0] + "/" + tail == cs[0] + ("/" + tail);
      SplitPrefix(cs[0], "/" + tail);
      assert cs[0] + "" == cs[0];
      assert [cs[0]] + cs[1..] == cs;
    }
  }

  /** Joining after an empty first piece puts a separator first. */
  lemma JoinEmptyHead(rest: seq<string>)
    requires |rest| >= 1
    ensures JoinParts([""] + rest) == "/" + JoinParts(rest)
  {
    assert ([""] + rest)[1..] == rest;
    assert "" + "/" + JoinParts(rest) == "/" + JoinParts(rest);
  }

  /** Joining after a character is put in front of the first piece puts it in front of the text. */
  lemma JoinGrowHead(x: char, rest: seq<string>)
    requires |rest| >= 1
    ensures JoinParts([[x] + rest[0]] + rest[1..]) == [x] + JoinParts(rest)
  {
    var r := [[x] + rest[0]] + rest[1..];
    if |rest| == 1 {
      assert r == [[x] + rest[0]];
    } else {
      JoinLonger(x, rest[0], rest[1..]);
      assert rest == [rest[0]] + rest[1..];
    }
  }

  lemma JoinLonger(x: char, first: string, more: seq<string>)
    requires |more| >= 1
    ensures JoinParts([[x] + first] + more) == [x] + JoinParts([first] + more)
  {
    var tail := JoinParts(more);
    assert JoinParts([[x] + first] + more) == ([x] + first) + "/" + tail by {
      assert ([[x] + first] + more)[1..] == more;
    }
    assert JoinParts([first] + more) == first + "/" + tail by {
      assert ([first] + more)[1..] == more;
    }
    PrependJoined(x, first, tail);
  }

  lemma PrependJoined(x: char, first: string, tail: string)
    ensures ([x] + first) + "/" + tail == [x] + (first + "/" + tail)
  {
  }

  lemma {:induction false} JoinSplit(s: string)
    ensures JoinParts(Split(s)) == s
  {
    if s != [] {
      var rest := Split(s[1..]);
      JoinSplit(s[1..]);
      if s[0] == '/' {
        JoinEmptyHead(rest);
        assert s == "/" + s[1..];
      } else {
        JoinGrowHead(s[0], rest);
        assert s == [s[0]] + s[1..];
      }
    }
  }

  lemma {:induction false} DropEmptyOfValid(cs: seq<string>)
    requires forall i :: 0 <= i < |cs| ==> ValidComponent(cs[i])
    ensures DropEmpty(cs) == cs
  {
    if cs != [] {
      DropEmptyOfValid(cs[1..]);
      assert [cs[0]] + cs[1..] == cs;
    }
  }

  lemma JoinHead(cs: seq<string>)
    requires |cs| >= 1 && cs[0] != ""
    ensures |JoinParts(cs)| > 0 && JoinParts(cs)[0] == cs[0][0]
  {
  }

  /** Printing a well-formed path and parsing the text gives the path back. */
  lemma ParseShow(p: Path)
    requires WellFormed(p)
    ensures Parse(Show(p)) == p
  {
    var cs := p.parts;
    if p.absolute {
      if cs == [] {
        assert Split("/") == ["", ""] by {
          assert "/"[1..] == "";
        }
        assert Show(p) == "/" + "";
        assert "/" + "" == "/";
      } else {
        var j := JoinParts(cs);
        SplitJoin(cs);
        assert ("/" + j)[1..] == j;
        assert Split("/" + j) == [""] + cs;
        DropEmptyOfValid(cs);
        assert DropEmpty([""] + cs) == DropEmpty(cs) by {
          assert ([""] + cs)[1..] == cs;
        }
      }
    } else if cs == [] {
      SplitDot();
    } else {
      SplitJoin(cs);
      DropEmptyOfValid(cs);
      JoinHead(cs);
      assert cs[0][0] != '/' by {
        assert ValidComponent(cs[0]);
        assert cs[0][0] in cs[0];
      }
    }
  }

  /** Parsing a canonical text and printing the path gives the text back. */
  lemma ShowParse(s: string)
    requires CanonicalText(s)
    ensures Show(Parse(s)) == s
  {
    if s == "." {
      SplitDot();
    } else if s == "/" {
      assert Split("/") == ["", ""] by {
        assert "/"[1..] == "";
      }
    } else if |s| > 0 && s[0] == '/' {
      ShowParseAnchored(s);
    } else {
      ShowParseRelative(s);
    }
  }

  lemma ShowParseAnchored(s: string)
    requires |s| > 0 && s[0] == '/'
    requires AllValid(Split(s[1..]))
    ensures Show(Parse(s)) == s
  {
    var body := s[1..];
    var cs := Split(body);
    assert Split(s) == [""] + cs;
    DropEmptyOfValid(cs);
    assert DropEmpty([""] + cs) == cs by {
      assert ([""] + cs)[1..] == cs;
    }
    assert Parse(s) == Path(true, cs);
    JoinSplit(body);
    assert s == "/" + body;
  }

  lemma ShowParseRelative(s: string)
    requires !(|s| > 0 && s[0] == '/')
    requires AllValid(Split(s))
    ensures Show(Parse(s)) == s
  {
    var cs := Split(s);
    DropEmptyOfValid(cs);
    assert Parse(s) == Path(false, cs);
    JoinSplit(s);
  }

  // ---------------------------------------------------------------- names

  /** `p.name`: the last component, or "" for a path without components. */
  function Name(p: Path): string
  {
    if |p.parts| == 0 then "" else p.parts[|p.parts| - 1]
  }

  /** The index of the last '.' in `name` (`name.rfind('.')`). */
  function LastDot(name: string): (r: Option<nat>)
    ensures r.Some? ==> r.value < |name| && name[r.value] == '.'
    ensures r.Some? ==> forall j :: r.value < j < |name| ==> name[j] != '.'
    ensures r.None? ==> forall j :: 0 <= j < |name| ==> name[j] != '.'
  {
    if name == [] then None
    else if name[|name| - 1] == '.' then Some(|name| - 1)
    else LastDot(name[..|name| - 1])
  }

  /** Where the suffix starts, when the name has one: a '.' that is neither first nor last. */
  function SuffixStart(name: string): Option<nat>
  {
    match LastDot(name)
    case Some(i) => if 0 < i < |name| - 1 then Some(i) else None
    case None => None
  }

  /** `p.suffix` of a name: from its last '.' on, or "". */
  function Suffix(name: string): string
  {
    match SuffixStart(name)
    case Some(i) => name[i..]
    case None => ""
  }

  /** `p.stem` of a name: the name without its suffix. */
  function Stem(name: string): string
  {
    match SuffixStart(name)
    case Some(i) => name[..i]
    case None => name
  }

  /** `p.with_name(n)`: the same path with the last component replaced. */
  function WithName(p: Path, n: string): Path
  {
    if |p.parts| == 0 then Path(p.absolute, [n])
    else Path(p.absolute, p.parts[..|p.parts| - 1] + [n])
  }

  /** `p.with_suffix(s)`: the stem of the last component followed by `s`. */
  function WithSuffix(p: Path, s: string): Path
  {
    WithName(p, Stem(Name(p)) + s)
  }

  /** Every name is its stem followed by its suffix. */
  lemma StemSuffix(name: string)
    ensures Stem(name) + Suffix(name) == name
  {
    match SuffixStart(name)
    case Some(i) => assert name[..i] + name[i..] == name;
    case None =>
  }

  // ---------------------------------------------------------------- joining and normalising

  /** `a / b`: an absolute right operand replaces the left one. */
  function Div(a: Path, b: Path): Path
  {
    if b.absolute then b else Path(a.absolute, a.parts + b.parts)
  }

  /** One component of lexical normalisation: ".." goes up (never above "/"), "." and "" stay. */
  function Step(acc: seq<string>, c: string): seq<string>
  {
    if c == ".." then (if acc == [] then [] else acc[..|acc| - 1])
    else if c == "" || c == "." then acc
    else acc + [c]
  }

  /** Appends `cs` to `acc` component by component, collapsing "." and "..". */
  function Collapse(acc: seq<string>, cs: seq<string>): seq<string>
    decreases cs
  {
    if cs == [] then acc else Collapse(Step(acc, cs[0]), cs[1..])
  }

  /** The absolute, lexically normalised form of `p`, with relative paths taken from `cwd`. */
  function Normalise(cwd: seq<string>, p: Path): seq<string>
  {
    Collapse(if p.absolute then [] else cwd, p.parts)
  }

  /** With nothing to collapse, normalisation is concatenation. */
  lemma {:induction false} CollapseNormal(acc: seq<string>, cs: seq<string>)
    requires Normal(cs)
    ensures Collapse(acc, cs) == acc + cs
    decreases cs
  {
    if cs != [] {
      assert Normal(cs[1..]) by {
        forall i | 0 <= i < |cs[1..]| ensures NormalComponent(cs[1..][i]) { assert cs[1..][i] == cs[i + 1]; }
      }
      CollapseNormal(acc + [cs[0]], cs[1..]);
      assert acc + [cs[0]] + cs[1..] == acc + cs;
    }
  }

  /** Normalising a concatenation is normalising its halves in turn. */
  lemma {:induction false} CollapseAppend(acc: seq<string>, a: seq<string>, b: seq<string>)
    ensures Collapse(acc, a + b) == Collapse(Collapse(acc, a), b)
    decreases a
  {
    if a != [] {
      assert (a + b)[0] == a[0] && (a + b)[1..] == a[1..] + b;
      CollapseAppend(Step(acc, a[0]), a[1..], b);
    } else {
      assert a + b == b;
    }
  }

  /** Normalisation produces a normal path from a normal start and separator-free components. */
  lemma {:induction false} CollapseIsNormal(acc: seq<string>, cs: seq<string>)
    requires Normal(acc)
    requires forall i :: 0 <= i < |cs| ==> '/' !in cs[i]
    ensures Normal(Collapse(acc, cs))
    decreases cs
  {
    if cs != [] {
      var next := Step(acc, cs[0]);
      assert Normal(next) by {
        if cs[0] == ".." {
          if acc != [] {
            forall i | 0 <= i < |next| ensures NormalComponent(next[i]) { assert next[i] == acc[i]; }
          }
        } else if cs[0] != "" && cs[0] != "." {
          forall i | 0 <= i < |next| ensures NormalComponent(next[i]) {
            if i < |acc| { assert next[i] == acc[i]; } else { assert next[i] == cs[0]; }
          }
        }
      }
      forall i | 0 <= i < |cs[1..]| ensures '/' !in cs[1..][i] { assert cs[1..][i] == cs[i + 1]; }
      CollapseIsNormal(next, cs[1..]);
    }
  }

  /** Normalising a well-formed path from a normal working directory gives a normal path. */
  lemma NormaliseIsNormal(cwd: seq<string>, p: Path)
    requires Normal(cwd) && WellFormed(p)
    ensures Normal(Normalise(cwd, p))
  {
    var start: seq<string> := if p.absolute then [] else cwd;
    CollapseIsNormal(start, p.parts);
  }
}
