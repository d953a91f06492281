/**
 * Station-title clean-up and playlist entry construction of the Shoutcast
 * playlist builder (get_shoutcast.py): `parseTitle`, `capitalize`, the
 * `.pls` scan in `getStationUrl`, and the search-value and playlist-name
 * encoding of the main routine.
 */
module Shoutcast {
  import opened Wrappers
  import opened Text

  // ---------------------------------------------------------------------
  // capitalize
  // ---------------------------------------------------------------------

  /** One word of `capitalize`: its first character upper-cased. */
  function CapWord(w: string): string
  {
    if w == [] then w else Upper(w[..1]) + w[1..]
  }

  function CapWords(ws: seq<string>): (r: seq<string>)
    ensures |r| == |ws|
  {
    if ws == [] then [] else [CapWord(ws[0])] + CapWords(ws[1..])
  }

  /**
   * `capitalize(line)`: the line lower-cased, split on single spaces, each
   * piece's first character upper-cased, re-joined with single spaces.
   */
  function Capitalize(line: string): string
  {
    Join(CapWords(Split(Lower(line), ' ')), " ")
  }

  /**
   * Reference definition, character by character: a character that starts
   * the text or follows a space is upper-cased, every other one lower-cased.
   */
  function CapitalizeSpec(s: string): (r: string)
    ensures |r| == |s|
    ensures forall i :: 0 <= i < |s| ==>
              r[i] == if i == 0 || s[i - 1] == ' ' then UpperC(LowerC(s[i])) else LowerC(s[i])
  {
    seq(|s|, i requires 0 <= i < |s| => if i == 0 || s[i - 1] == ' ' then UpperC(LowerC(s[i])) else LowerC(s[i]))
  }

  /** Upper-cases the characters of `t` that start a word; `start` says `t` starts one. */
  function CapFrom(t: string, start: bool): (r: string)
    ensures |r| == |t|
  {
    if t == [] then []
    else [if start then UpperC(t[0]) else t[0]] + CapFrom(t[1..], t[0] == ' ')
  }

  lemma {:induction false} CapFromAt(t: string, start: bool)
    ensures forall i :: 0 <= i < |t| ==>
              CapFrom(t, start)[i] == if (i == 0 && start) || (i > 0 && t[i - 1] == ' ') then UpperC(t[i]) else t[i]
    decreases |t|
  {
    if t != [] {
      var rest := t[1..];
      CapFromAt(rest, t[0] == ' ');
      forall i | 0 <= i < |t|
        ensures CapFrom(t, start)[i] == if (i == 0 && start) || (i > 0 && t[i - 1] == ' ') then UpperC(t[i]) else t[i]
      {
        if i > 0 {
          assert CapFrom(t, start)[i] == CapFrom(rest, t[0] == ' ')[i - 1];
          assert rest[i - 1] == t[i];
          if i > 1 {
            assert rest[i - 2] == t[i - 1];
          }
        }
      }
    }
  }

  /**
   * Splitting on spaces and capitalising each piece is the same as
   * capitalising word starts in place; `start` says whether the first piece
   * is a word start.
   */
  lemma {:induction false} CapFromSplit(l: string, start: bool)
    ensures CapFrom(l, start) ==
            (if start then CapWord(Split(l, ' ')[0]) else Split(l, ' ')[0]) + JoinTail(CapWords(Split(l, ' ')[1..]), " ")
    decreases |l|
  {
    if l != [] {
      CapFromSplit(l[1..], l[0] == ' ');
      if l[0] == ' ' {
        CapFromSplitAtSpace(l, start);
      } else {
        CapFromSplitInWord(l, start);
      }
    }
  }

  /** The step of CapFromSplit at a space: the space ends an (empty or finished) piece. */
  lemma CapFromSplitAtSpace(l: string, start: bool)
    requires l != [] && l[0] == ' '
    requires CapFrom(l[1..], true) ==
             CapWord(Split(l[1..], ' ')[0]) + JoinTail(CapWords(Split(l[1..], ' ')[1..]), " ")
    ensures CapFrom(l, start) ==
            (if start then CapWord(Split(l, ' ')[0]) else Split(l, ' ')[0]) + JoinTail(CapWords(Split(l, ' ')[1..]), " ")
  {
    var r' := Split(l[1..], ' ');
    assert Split(l, ' ') == [""] + r';
    assert Split(l, ' ')[1..] == r';
    assert CapWords(r')[1..] == CapWords(r'[1..]);
    calc {
      (if start then CapWord("") else "") + JoinTail(CapWords(r'), " ");
      JoinTail(CapWords(r'), " ");
      " " + CapWord(r'[0]) + JoinTail(CapWords(r'[1..]), " ");
      [' '] + CapFrom(l[1..], true);
      [if start then UpperC(l[0]) else l[0]] + CapFrom(l[1..], l[0] == ' ');
    }
  }

  /** The step of CapFromSplit inside a word: the character joins the first piece. */
  lemma CapFromSplitInWord(l: string, start: bool)
    requires l != [] && l[0] != ' '
    requires CapFrom(l[1..], false) ==
             Split(l[1..], ' ')[0] + JoinTail(CapWords(Split(l[1..], ' ')[1..]), " ")
    ensures CapFrom(l, start) ==
            (if start then CapWord(Split(l, ' ')[0]) else Split(l, ' ')[0]) + JoinTail(CapWords(Split(l, ' ')[1..]), " ")
  {
    var r' := Split(l[1..], ' ');
    var w := [l[0]] + r'[0];
    var tail := JoinTail(CapWords(r'[1..]), " ");
    assert Split(l, ' ')[0] == w && Split(l, ' ')[1..] == r'[1..] by {
      assert Split(l, ' ') == [w] + r'[1..];
    }
    var first := if start then UpperC(l[0]) else l[0];
    assert CapFrom(l, start) == [first] + (r'[0] + tail);
    assert [first] + (r'[0] + tail) == ([first] + r'[0]) + tail;
    if start {
      assert CapWord(w) == [UpperC(l[0])] + r'[0] by {
        assert w[..1] == [l[0]] && w[1..] == r'[0];
      }
    }
  }

  /** `capitalize` agrees with its character-by-character reference definition. */
  lemma CapitalizeMatchesSpec(s: string)
    ensures Capitalize(s) == CapitalizeSpec(s)
  {
    var l := Lower(s);
    var c := CapFrom(l, true);
    assert Capitalize(s) == c by {
      var r := Split(l, ' ');
      CapFromSplit(l, true);
      assert Capitalize(s) == CapWord(r[0]) + JoinTail(CapWords(r[1..]), " ");
    }
    CapFromAt(l, true);
    forall i | 0 <= i < |s|
      ensures c[i] == CapitalizeSpec(s)[i]
    {
      if i > 0 {
        CaseMapFixesNonLetters(s[i - 1], ' ');
      }
    }
    assert c == CapitalizeSpec(s);
  }

  /**
   * `capitalize` keeps the length, keeps in place every character that is
   * not an ASCII letter (spaces and other white space included), and turns
   * letters into letters.
   */
  lemma CapitalizeKeepsShape(s: string)
    ensures |Capitalize(s)| == |s|
    ensures forall i :: 0 <= i < |s| && !('a' <= s[i] <= 'z' || 'A' <= s[i] <= 'Z') ==> Capitalize(s)[i] == s[i]
    ensures forall i :: 0 <= i < |s| && ('a' <= s[i] <= 'z' || 'A' <= s[i] <= 'Z') ==>
              'a' <= Capitalize(s)[i] <= 'z' || 'A' <= Capitalize(s)[i] <= 'Z'
  {
    CapitalizeMatchesSpec(s);
    forall i | 0 <= i < |s| && ('a' <= s[i] <= 'z' || 'A' <= s[i] <= 'Z')
      ensures 'a' <= Capitalize(s)[i] <= 'z' || 'A' <= Capitalize(s)[i] <= 'Z'
    {
      CaseMapKeepsLetters(s[i]);
    }
  }

  /** The reference definition leaves its own output unchanged. */
  lemma CapitalizeSpecSettles(s: string)
    ensures CapitalizeSpec(CapitalizeSpec(s)) == CapitalizeSpec(s)
  {
    var c := CapitalizeSpec(s);
    forall i | 0 <= i < |s|
      ensures CapitalizeSpec(c)[i] == c[i]
    {
      CaseMapSettles(s[i]);
      if i > 0 {
        CaseMapFixesNonLetters(s[i - 1], ' ');
        CaseMapFixesNonLetters(LowerC(s[i - 1]), ' ');
      }
    }
  }

  /** Capitalising twice is capitalising once. */
  lemma CapitalizeIdempotent(s: string)
    ensures Capitalize(Capitalize(s)) == Capitalize(s)
  {
    CapitalizeMatchesSpec(s);
    CapitalizeMatchesSpec(Capitalize(s));
    CapitalizeSpecSettles(s);
  }

  // ---------------------------------------------------------------------
  // parseTitle
  // ---------------------------------------------------------------------

  /** `if c in t: t = t.split(c)[0]`: the text before the first `c`. */
  function CutAt(t: string, c: char): (r: string)
    ensures c !in r
    ensures r <= t
    ensures forall x :: x in r ==> x in t
  {
    var r := if c in t then Split(t, c)[0] else t;
    assert forall x :: x in r ==> x in t by {
      forall x | x in r ensures x in t {
        var k :| 0 <= k < |r| && r[k] == x;
        assert t[k] == x;
      }
    }
    r
  }

  /** The first step of `parseTitle`'s clean-up: cut at `|`, `-`, `(` and `/`, in that order. */
  function CutTitle(t: string): (r: string)
    ensures '|' !in r && '-' !in r && '(' !in r && '/' !in r
    ensures forall x :: x in r ==> x in t
  {
    CutAt(CutAt(CutAt(CutAt(t, '|'), '-'), '('), '/')
  }

  /** The deletions of `parseTitle`: every `:`, `*`, `"` and `!`, in that order. */
  function DropMarks(t: string): (r: string)
    ensures ':' !in r && '*' !in r && '"' !in r && '!' !in r
    ensures forall x :: x in r ==> x in t
  {
    var a := ReplaceAll(t, ":", "");
    var b := ReplaceAll(a, "*", "");
    var c := ReplaceAll(b, "\"", "");
    var d := ReplaceAll(c, "!", "");
    ReplaceDrawsFrom(t, ":", "");
    ReplaceDrawsFrom(a, "*", "");
    ReplaceDrawsFrom(b, "\"", "");
    ReplaceDrawsFrom(c, "!", "");
    ReplaceRemoves(t, ':', "");
    ReplaceRemoves(a, '*', "");
    ReplaceRemoves(b, '"', "");
    ReplaceRemoves(c, '!', "");
    d
  }

  /** The characters that cannot survive `parseTitle`. */
  predicate Forbidden(x: char)
  {
    x == '|' || x == '-' || x == '(' || x == '/' || x == ':' || x == '*' || x == '"' || x == '!' || x == '#'
  }

  /**
   * `parseTitle` after its `(#` step: the cuts, `..` deleted, the
   * deletions, `#` turned into a space, both ends stripped, capitalised,
   * and "Unknown" if nothing is left.
   */
  function Clean(t: string): string
  {
    var t2 := ReplaceAll(CutTitle(t), "..", "");
    var t4 := ReplaceAll(DropMarks(t2), "#", " ");
    var t5 := Capitalize(RStrip(LStrip(t4)));
    if |t5| < 1 then "Unknown" else t5
  }

  /**
   * `parseTitle(title)`: a title starting `(#` is first replaced by the
   * text between its first and second `)`; None is the IndexError raised
   * when it has no `)`.
   */
  function ParseTitle(title: string): Option<string>
  {
    if "(#" <= title then
      var x := Split(title, ')');
      if |x| < 2 then None else Some(Clean(x[1]))
    else Some(Clean(title))
  }

  /** A title as `parseTitle` leaves it. */
  predicate CleanTitle(t: string)
  {
    t != [] && !IsSpace(t[0]) && !IsSpace(t[|t| - 1]) && (forall i :: 0 <= i < |t| ==> !Forbidden(t[i]))
  }

  /** Before stripping, the text has none of the characters `parseTitle` removes. */
  lemma MarksGone(t: string)
    ensures forall x :: Forbidden(x) ==> x !in ReplaceAll(DropMarks(ReplaceAll(CutTitle(t), "..", "")), "#", " ")
  {
    var t1 := CutTitle(t);
    var t2 := ReplaceAll(t1, "..", "");
    var t3 := DropMarks(t2);
    ReplaceDrawsFrom(t1, "..", "");
    ReplaceDrawsFrom(t3, "#", " ");
    ReplaceRemoves(t3, '#', " ");
  }

  /**
   * The cleaned title is never empty, has no white space at either end, and
   * contains none of `|`, `-`, `(`, `/`, `:`, `*`, `"`, `!`, `#`.
   */
  lemma CleanIsClean(t: string)
    ensures CleanTitle(Clean(t))
  {
    var t4 := ReplaceAll(DropMarks(ReplaceAll(CutTitle(t), "..", "")), "#", " ");
    var u := RStrip(LStrip(t4));
    assert forall x :: Forbidden(x) ==> x !in u by {
      MarksGone(t);
      forall x | Forbidden(x) ensures x !in u {
        StripKeepsAbsent(t4, x);
      }
    }
    CapitalizedStripIsClean(u);
    assert Clean(t) == if |Capitalize(u)| < 1 then "Unknown" else Capitalize(u);
    UnknownIsClean();
  }

  /** The fallback title is itself clean. */
  lemma UnknownIsClean()
    ensures CleanTitle("Unknown")
  {
    var un := "Unknown";
    assert un == ['U', 'n', 'k', 'n', 'o', 'w', 'n'];
    assert !IsSpace('U') && !IsSpace('n');
  }

  /** Capitalising a stripped text without forbidden characters gives a clean title, or nothing. */
  lemma CapitalizedStripIsClean(u: string)
    requires u == [] || (!IsSpace(u[0]) && !IsSpace(u[|u| - 1]))
    requires forall x :: Forbidden(x) ==> x !in u
    ensures Capitalize(u) == [] || CleanTitle(Capitalize(u))
  {
    var t5 := Capitalize(u);
    CapitalizeKeepsShape(u);
    forall i | 0 <= i < |t5| ensures !Forbidden(t5[i]) && (IsSpace(t5[i]) <==> IsSpace(u[i])) {
      assert u[i] in u;
      if 'a' <= u[i] <= 'z' || 'A' <= u[i] <= 'Z' {
        CaseMapKeepsSpace(u[i]);
      }
    }
  }

  /** `parseTitle` fails exactly on a title that starts `(#` and has no `)`. */
  lemma ParseTitleFails(title: string)
    ensures ParseTitle(title).None? <==> "(#" <= title && ')' !in title
  {
    if ')' in title {
      SplitPresent(title, ')');
    } else {
      SplitAbsent(title, ')');
    }
  }

  /**
   * A `(#…)` tag in front of the title is dropped: what is cleaned is the
   * text between the tag's `)` and the next `)`, or to the end when there
   * is none.
   */
  lemma ParseTitleDropsTag(tag: string, rest: string)
    requires ')' !in tag
    ensures ParseTitle("(#" + tag + ")" + rest) == Some(Clean(Split(rest, ')')[0]))
    ensures ')' !in rest ==> ParseTitle("(#" + tag + ")" + rest) == Some(Clean(rest))
  {
    var p := "(#" + tag;
    var title := "(#" + tag + ")" + rest;
    assert title == p + [')'] + rest;
    assert "(#" <= title by {
      assert title[..2] == "(#";
    }
    assert Split(title, ')') == [p] + Split(rest, ')') by {
      assert ')' !in p;
      SplitAfter(p, ')', rest);
    }
    assert ParseTitle(title) == Some(Clean(Split(rest, ')')[0]));
    if ')' !in rest {
      SplitAbsent(rest, ')');
    }
  }

  /** A title that is already clean, capitalised and free of `..` is returned unchanged. */
  lemma CleanKeepsCleanTitle(t: string)
    requires CleanTitle(t) && NoDoubled(t, '.') && Capitalize(t) == t
    ensures Clean(t) == t
  {
    assert forall x :: Forbidden(x) ==> x !in t;
    assert CutTitle(t) == t;
    DeleteDoubledAbsent(t, '.');
    assert DropMarks(t) == t by {
      ReplaceAbsent(t, ':', "");
      ReplaceAbsent(t, '*', "");
      ReplaceAbsent(t, '"', "");
      ReplaceAbsent(t, '!', "");
    }
    ReplaceAbsent(t, '#', " ");
    StripIdle(t);
  }

  /** Every title `parseTitle` returns is clean. */
  lemma ParseTitleIsClean(title: string)
    ensures ParseTitle(title).Some? ==> CleanTitle(ParseTitle(title).value)
  {
    if "(#" <= title {
      var x := Split(title, ')');
      if |x| >= 2 {
        CleanIsClean(x[1]);
      }
    } else {
      CleanIsClean(title);
    }
  }

  // ---------------------------------------------------------------------
  // getStationUrl
  // ---------------------------------------------------------------------

  /**
   * The stream address of a `File` line as the source reads it: the line
   * must split into exactly two pieces on `=`, otherwise the unpacking
   * raises and the line is skipped.
   */
  function FileUrlAsWritten(line: string): Option<string>
  {
    var parts := Split(line, '=');
    if |parts| == 2 then Some(parts[1]) else None
  }

  /** The stream address of a `File` line: all text after the first `=`. */
  function FileUrl(line: string): Option<string>
  {
    var parts := Split(line, '=');
    if |parts| < 2 then None else Some(Join(parts[1..], "="))
  }

  /** A `key=address` line yields the whole address, whatever `=` it contains. */
  lemma FileUrlRoundTrip(key: string, address: string)
    requires '=' !in key
    ensures FileUrl(key + "=" + address) == Some(address)
  {
    assert key + "=" + address == key + ['='] + address;
    SplitAfter(key, '=', address);
    SplitJoin(address, '=');
    assert Split(key + "=" + address, '=')[1..] == Split(address, '=');
  }

  /** As written, an address that contains `=` (a query string) is lost. */
  lemma AsWrittenFileUrlLosesQuery(key: string, address: string)
    requires '=' !in key && '=' in address
    ensures FileUrlAsWritten(key + "=" + address) == None
    ensures FileUrl(key + "=" + address) == Some(address)
  {
    assert key + "=" + address == key + ['='] + address;
    SplitAfter(key, '=', address);
    SplitPresent(address, '=');
    FileUrlRoundTrip(key, address);
  }

  /**
   * The address a `File` line gives the scan: as the source reads it when
   * `asWritten`, otherwise the corrected reading.
   */
  function ReadFileUrl(line: string, asWritten: bool): Option<string>
  {
    if asWritten then FileUrlAsWritten(line) else FileUrl(line)
  }

  /**
   * As written, a `File` line whose address holds `=` leaves the address
   * the scan already had; the corrected reading takes the whole address.
   */
  lemma AsWrittenScanKeepsOldAddress(key: string, address: string, rest: seq<string>, translate: string -> string,
                                     url: string, title: string)
    requires "File" <= key && '=' !in key && '=' in address
    ensures Scan([key + "=" + address] + rest, translate, url, title, true) == Scan(rest, translate, url, title, true)
    ensures Scan([key + "=" + address] + rest, translate, url, title, false) == Scan(rest, translate, address, title, false)
  {
    var lines := [key + "=" + address] + rest;
    assert lines[1..] == rest;
    assert key <= key + "=" + address;
    AsWrittenFileUrlLosesQuery(key, address);
  }

  const EXTM3U: string := "#EXTM3U"
  const EXTINF: string := "#EXTINF:-1,"

  /**
   * The scan of the `.pls` lines from `url` and `title` on: a `File` line
   * updates the address, the first `Title1` line whose title parses ends
   * the scan with its entry. A `Title1` line without `=` is skipped; one
   * whose title fails to parse keeps the raw title and the scan goes on.
   * `translate` is the character translation applied to title lines, and
   * `asWritten` chooses how `File` lines are read (ReadFileUrl).
   * Returns the title and the entry (empty when none was built).
   */
  function Scan(lines: seq<string>, translate: string -> string, url: string, title: string, asWritten: bool)
    : (string, seq<string>)
  {
    if lines == [] then (title, [])
    else
      var line := lines[0];
      if "File" <= line then
        match ReadFileUrl(line, asWritten)
        case Some(u) => Scan(lines[1..], translate, u, title, asWritten)
        case None => Scan(lines[1..], translate, url, title, asWritten)
      else if "Title1" <= line then
        var x := Split(translate(line), '=');
        if |x| < 2 then Scan(lines[1..], translate, url, title, asWritten)
        else
          match ParseTitle(x[1])
          case None => Scan(lines[1..], translate, url, x[1], asWritten)
          case Some(t) => (t, [EXTM3U, EXTINF + t, url])
      else Scan(lines[1..], translate, url, title, asWritten)
  }

  /** A `File` line whose address can be read. */
  predicate Readable(line: string, asWritten: bool)
  {
    "File" <= line && ReadFileUrl(line, asWritten).Some?
  }

  /** The address after one line: a readable `File` line replaces it. */
  function NextAddress(line: string, url: string, asWritten: bool): string
  {
    if Readable(line, asWritten) then ReadFileUrl(line, asWritten).value else url
  }

  /** The address after reading `lines` from `url` on. */
  function LastAddress(lines: seq<string>, url: string, asWritten: bool): string
    decreases |lines|
  {
    if lines == [] then url else LastAddress(lines[1..], NextAddress(lines[0], url, asWritten), asWritten)
  }

  /** Line `i` is the last readable `File` line. */
  predicate LastReadableAt(lines: seq<string>, i: int, asWritten: bool)
  {
    0 <= i < |lines| && Readable(lines[i], asWritten)
    && forall j :: i < j < |lines| ==> !Readable(lines[j], asWritten)
  }

  /** No line is a readable `File` line. */
  predicate NoneReadable(lines: seq<string>, asWritten: bool)
  {
    forall j :: 0 <= j < |lines| ==> !Readable(lines[j], asWritten)
  }

  /** Without a readable `File` line the starting address stays. */
  lemma {:induction false} NoFileKeepsAddress(lines: seq<string>, url: string, asWritten: bool)
    requires NoneReadable(lines, asWritten)
    ensures LastAddress(lines, url, asWritten) == url
    decreases |lines|
  {
    if lines != [] {
      assert !Readable(lines[0], asWritten);
      forall j | 0 <= j < |lines[1..]| ensures !Readable(lines[1..][j], asWritten) {
        assert lines[1..][j] == lines[j + 1];
      }
      NoFileKeepsAddress(lines[1..], url, asWritten);
    }
  }

  /** The last readable `File` line gives the address. */
  lemma {:induction false} LastFileGivesAddress(lines: seq<string>, url: string, i: int, asWritten: bool)
    requires LastReadableAt(lines, i, asWritten)
    ensures LastAddress(lines, url, asWritten) == ReadFileUrl(lines[i], asWritten).value
    decreases |lines|
  {
    var u := NextAddress(lines[0], url, asWritten);
    assert LastAddress(lines, url, asWritten) == LastAddress(lines[1..], u, asWritten);
    if i == 0 {
      forall j | 0 <= j < |lines[1..]| ensures !Readable(lines[1..][j], asWritten) {
        assert lines[1..][j] == lines[j + 1];
      }
      NoFileKeepsAddress(lines[1..], u, asWritten);
    } else {
      assert lines[1..][i - 1] == lines[i];
      forall j | i - 1 < j < |lines[1..]| ensures !Readable(lines[1..][j], asWritten) {
        assert lines[1..][j] == lines[j + 1];
      }
      LastFileGivesAddress(lines[1..], u, i - 1, asWritten);
    }
  }

  /**
   * The address after some lines is the one the last readable `File` line
   * among them gives, or the starting one when none is readable.
   */
  lemma LastAddressIsLastFile(lines: seq<string>, url: string, asWritten: bool)
    ensures NoneReadable(lines, asWritten) ==> LastAddress(lines, url, asWritten) == url
    ensures forall i :: LastReadableAt(lines, i, asWritten)
                        ==> LastAddress(lines, url, asWritten) == ReadFileUrl(lines[i], asWritten).value
  {
    if NoneReadable(lines, asWritten) {
      NoFileKeepsAddress(lines, url, asWritten);
    }
    forall i | LastReadableAt(lines, i, asWritten)
      ensures LastAddress(lines, url, asWritten) == ReadFileUrl(lines[i], asWritten).value
    {
      LastFileGivesAddress(lines, url, i, asWritten);
    }
  }

  /** The title a line gives the scan: a `Title1` line whose title parses. */
  function TitleOf(line: string, translate: string -> string): Option<string>
  {
    if "File" <= line || !("Title1" <= line) then None
    else
      var x := Split(translate(line), '=');
      if |x| < 2 then None else ParseTitle(x[1])
  }

  /** Line `k` is the first that gives a title. */
  predicate FirstTitleAt(lines: seq<string>, translate: string -> string, k: int)
  {
    0 <= k < |lines| && TitleOf(lines[k], translate).Some?
    && forall j :: 0 <= j < k ==> TitleOf(lines[j], translate).None?
  }

  /** Reading the first `k + 1` lines is reading the first line and then `k` more. */
  lemma LastAddressShift(lines: seq<string>, url: string, k: nat, asWritten: bool)
    requires k < |lines|
    ensures LastAddress(lines[..k + 1], url, asWritten)
            == LastAddress(lines[1..][..k], NextAddress(lines[0], url, asWritten), asWritten)
  {
    var head := lines[..k + 1];
    assert head != [] && head[0] == lines[0] && head[1..] == lines[1..][..k];
  }

  /** The title the scan carries past a line: the raw text of a `Title1` line with `=`. */
  function NextTitle(line: string, translate: string -> string, title: string): string
  {
    if !("File" <= line) && "Title1" <= line && |Split(translate(line), '=')| >= 2
    then Split(translate(line), '=')[1] else title
  }

  /** A line that gives no title only moves the address and the raw title on. */
  lemma ScanPassesLine(lines: seq<string>, translate: string -> string, url: string, title: string, asWritten: bool)
    requires lines != [] && TitleOf(lines[0], translate).None?
    ensures Scan(lines, translate, url, title, asWritten)
            == Scan(lines[1..], translate, NextAddress(lines[0], url, asWritten), NextTitle(lines[0], translate, title),
                    asWritten)
  {
  }

  /** A line that gives a title ends the scan with its entry. */
  lemma ScanStopsAtTitle(lines: seq<string>, translate: string -> string, url: string, title: string, asWritten: bool)
    requires lines != [] && TitleOf(lines[0], translate).Some?
    ensures Scan(lines, translate, url, title, asWritten)
            == (TitleOf(lines[0], translate).value, [EXTM3U, EXTINF + TitleOf(lines[0], translate).value, url])
  {
  }

  /** Every title a line gives is clean. */
  lemma TitleIsClean(line: string, translate: string -> string)
    requires TitleOf(line, translate).Some?
    ensures CleanTitle(TitleOf(line, translate).value)
  {
    ParseTitleIsClean(Split(translate(line), '=')[1]);
  }

  /** The entry a scan builds, taken from line `k`. */
  function EntryAt(lines: seq<string>, translate: string -> string, url: string, k: int, asWritten: bool)
    : (string, seq<string>)
    requires 0 <= k < |lines| && TitleOf(lines[k], translate).Some?
  {
    var t := TitleOf(lines[k], translate).value;
    (t, [EXTM3U, EXTINF + t, LastAddress(lines[..k], url, asWritten)])
  }

  /** Without a line that gives a title the scan builds nothing. */
  lemma {:induction false} ScanWithoutTitle(lines: seq<string>, translate: string -> string, url: string, title: string,
                                            asWritten: bool)
    requires forall k :: 0 <= k < |lines| ==> TitleOf(lines[k], translate).None?
    ensures Scan(lines, translate, url, title, asWritten).1 == []
    decreases |lines|
  {
    if lines != [] {
      ScanPassesLine(lines, translate, url, title, asWritten);
      forall k | 0 <= k < |lines[1..]| ensures TitleOf(lines[1..][k], translate).None? {
        assert lines[1..][k] == lines[k + 1];
      }
      ScanWithoutTitle(lines[1..], translate, NextAddress(lines[0], url, asWritten),
                       NextTitle(lines[0], translate, title), asWritten);
    }
  }

  /** The scan builds the entry of the first line that gives a title. */
  lemma {:induction false} ScanBuildsFirstTitle(lines: seq<string>, translate: string -> string, url: string,
                                                title: string, k: int, asWritten: bool)
    requires FirstTitleAt(lines, translate, k)
    ensures Scan(lines, translate, url, title, asWritten) == EntryAt(lines, translate, url, k, asWritten)
    decreases |lines|
  {
    if k == 0 {
      ScanStopsAtTitle(lines, translate, url, title, asWritten);
      assert lines[..0] == [];
    } else {
      assert TitleOf(lines[0], translate).None?;
      ScanPassesLine(lines, translate, url, title, asWritten);
      var u := NextAddress(lines[0], url, asWritten);
      assert lines[1..][k - 1] == lines[k];
      forall j | 0 <= j < k - 1 ensures TitleOf(lines[1..][j], translate).None? {
        assert lines[1..][j] == lines[j + 1];
      }
      assert FirstTitleAt(lines[1..], translate, k - 1);
      ScanBuildsFirstTitle(lines[1..], translate, u, NextTitle(lines[0], translate, title), k - 1, asWritten);
      LastAddressShift(lines, url, k - 1, asWritten);
    }
  }

  /** Some line that gives a title has a first one. */
  lemma {:induction false} FirstTitleExists(lines: seq<string>, translate: string -> string, i: int)
    requires 0 <= i < |lines| && TitleOf(lines[i], translate).Some?
    ensures exists k :: FirstTitleAt(lines, translate, k)
    decreases i
  {
    if forall j :: 0 <= j < i ==> TitleOf(lines[j], translate).None? {
      assert FirstTitleAt(lines, translate, i);
    } else {
      var j :| 0 <= j < i && TitleOf(lines[j], translate).Some?;
      FirstTitleExists(lines, translate, j);
    }
  }

  /**
   * The scan builds an entry exactly when some line gives a title. The
   * entry is then the header, the info line with the title of the first
   * such line, and the address read up to that line (the last readable
   * `File` line before it, LastAddressIsLastFile); the title is clean.
   */
  lemma ScanEntryShape(lines: seq<string>, translate: string -> string, url: string, title: string, asWritten: bool)
    ensures Scan(lines, translate, url, title, asWritten).1 == []
            <==> forall k :: 0 <= k < |lines| ==> TitleOf(lines[k], translate).None?
    ensures Scan(lines, translate, url, title, asWritten).1 != []
            ==> CleanTitle(Scan(lines, translate, url, title, asWritten).0)
                && exists k :: FirstTitleAt(lines, translate, k)
                               && Scan(lines, translate, url, title, asWritten) == EntryAt(lines, translate, url, k, asWritten)
  {
    if forall k :: 0 <= k < |lines| ==> TitleOf(lines[k], translate).None? {
      ScanWithoutTitle(lines, translate, url, title, asWritten);
    } else {
      var i :| 0 <= i < |lines| && TitleOf(lines[i], translate).Some?;
      FirstTitleExists(lines, translate, i);
      var k :| FirstTitleAt(lines, translate, k);
      ScanBuildsFirstTitle(lines, translate, url, title, k, asWritten);
      TitleIsClean(lines[k], translate);
    }
  }

  /**
   * `getStationUrl`: `response` holds the lines of the fetched `.pls` file,
   * or None when the request failed (then the title is empty and nothing
   * is built). Returns the title and the entry appended to the playlist.
   * With `asWritten` the `File` lines are read as the source reads them.
   */
  method GetStationUrl(response: Option<seq<string>>, translate: string -> string, asWritten: bool)
    returns (title: string, m3u: seq<string>)
    ensures response.None? ==> title == "" && m3u == []
    ensures response.Some? ==> (title, m3u) == Scan(response.value, translate, "", "", asWritten)
  {
    var url := "";
    title := "";
    m3u := [];
    if response.None? {
      return;
    }
    var lines := response.value;
    var i := 0;
    while i < |lines|
      invariant 0 <= i <= |lines|
      invariant m3u == []
      invariant Scan(lines, translate, "", "", asWritten) == Scan(lines[i..], translate, url, title, asWritten)
    {
      var line := lines[i];
      assert lines[i..][1..] == lines[i + 1..];
      if "File" <= line {
        var parts := Split(line, '=');
        if asWritten {
          if |parts| == 2 {
            url := parts[1];
          }
        } else if |parts| >= 2 {
          url := Join(parts[1..], "=");
        }
      } else if "Title1" <= line {
        var x := Split(translate(line), '=');
        if |x| >= 2 {
          title := x[1];
          var parsed := ParseTitle(title);
          if parsed.Some? {
            title := parsed.value;
            m3u := [EXTM3U, EXTINF + title, url];
            return;
          }
        }
      }
      i := i + 1;
    }
  }

  // ---------------------------------------------------------------------
  // Search value and playlist name
  // ---------------------------------------------------------------------

  const PLAYLIST_STORE: string := "/usr/share/radio/playlists"

  /** The search value sent in the request: spaces become `+`, `&` becomes `%26`. */
  function SearchValue(v: string): (r: string)
    ensures ' ' !in r && '&' !in r
  {
    var plus := ReplaceAll(v, " ", "+");
    ReplaceRemoves(v, ' ', "+");
    ReplaceKeepsAbsent(plus, "&", "%26", ' ');
    ReplaceRemoves(plus, '&', "%26");
    ReplaceAll(plus, "&", "%26")
  }

  /** How the request encodes one character of the search value. */
  function SearchChar(c: char): string
  {
    if c == ' ' then "+" else if c == '&' then "%26" else [c]
  }

  /** The search value encoded character by character. */
  function SearchValueSpec(v: string): string
    decreases |v|
  {
    if v == [] then [] else SearchChar(v[0]) + SearchValueSpec(v[1..])
  }

  /** The two replacements encode the first character on its own and then the rest. */
  lemma SearchValueStep(c: char, v: string)
    ensures SearchValue([]) == []
    ensures SearchValue([c] + v) == SearchChar(c) + SearchValue(v)
  {
    var e: char := if c == ' ' then '+' else c;
    ReplaceCharStep(c, v, ' ', "+");
    var tail := ReplaceAll(v, " ", "+");
    assert ReplaceAll([c] + v, " ", "+") == [e] + tail;
    ReplaceCharConcat([e], tail, '&', "%26");
    ReplaceCharStep(e, [], '&', "%26");
    assert [e] + [] == [e];
  }

  /** The search value is the character-by-character encoding of what was asked for. */
  lemma {:induction false} SearchValueMatchesSpec(v: string)
    ensures SearchValue(v) == SearchValueSpec(v)
    decreases |v|
  {
    if v == [] {
      SearchValueStep(' ', v);
    } else {
      assert v == [v[0]] + v[1..];
      SearchValueStep(v[0], v[1..]);
      SearchValueMatchesSpec(v[1..]);
    }
  }

  /**
   * The playlist file for a search: named after the search value for a
   * station or genre search, after the search type otherwise, with every
   * `+` in the path turned into `_` and every other character kept.
   */
  function PlaylistPath(searchType: string, searchValue: string): (r: string)
    ensures var fname := if searchType == "stationsearch" || searchType == "genresearch"
                         then ReplaceAll(searchValue, " ", "") else searchType;
            var path := PLAYLIST_STORE + "/" + fname + ".m3u";
            |r| == |path| && forall i :: 0 <= i < |path| ==> r[i] == if path[i] == '+' then '_' else path[i]
    ensures '+' !in r
  {
    var fname := if searchType == "stationsearch" || searchType == "genresearch" then ReplaceAll(searchValue, " ", "")
                 else searchType;
    ReplaceRemoves(PLAYLIST_STORE + "/" + fname + ".m3u", '+', "_");
    ReplaceCharEverywhere(PLAYLIST_STORE + "/" + fname + ".m3u", '+', '_');
    ReplaceAll(PLAYLIST_STORE + "/" + fname + ".m3u", "+", "_")
  }

  /** How one character of the search ends up in the playlist's name. */
  function NameChar(c: char): string
  {
    if c == ' ' || c == '+' then "_" else if c == '&' then "%26" else [c]
  }

  /** The playlist name for a search, character by character. */
  function PlaylistNameSpec(v: string): string
    decreases |v|
  {
    if v == [] then [] else NameChar(v[0]) + PlaylistNameSpec(v[1..])
  }

  /** Turning `+` into `_` in the encoded search value gives the name, character by character. */
  lemma {:induction false} EncodedName(v: string)
    ensures ReplaceAll(SearchValue(v), "+", "_") == PlaylistNameSpec(v)
    decreases |v|
  {
    if v == [] {
      SearchValueStep(' ', v);
    } else {
      var c := v[0];
      assert v == [c] + v[1..];
      SearchValueStep(c, v[1..]);
      ReplaceCharConcat(SearchChar(c), SearchValue(v[1..]), '+', "_");
      if c == ' ' || c == '+' {
        ReplaceCharStep('+', [], '+', "_");
        assert "+" == ['+'] + [];
      } else if c == '&' {
        ReplaceAbsent("%26", '+', "_");
      } else {
        ReplaceCharStep(c, [], '+', "_");
        assert [c] == [c] + [];
      }
      EncodedName(v[1..]);
    }
  }

  /**
   * For a station or genre search the playlist is named after the search:
   * a space or `+` becomes `_`, `&` becomes `%26`, every other character
   * is kept; the name contains neither white space nor `&`.
   */
  lemma SearchPlaylistName(searchType: string, v: string)
    requires searchType == "stationsearch" || searchType == "genresearch"
    ensures PlaylistPath(searchType, SearchValue(v)) == PLAYLIST_STORE + "/" + PlaylistNameSpec(v) + ".m3u"
    ensures ' ' !in PlaylistPath(searchType, SearchValue(v)) && '&' !in PlaylistPath(searchType, SearchValue(v))
  {
    var sv := SearchValue(v);
    ReplaceAbsent(sv, ' ', "");
    assert PlaylistPath(searchType, sv) == ReplaceAll(PLAYLIST_STORE + "/" + sv + ".m3u", "+", "_");
    PathKeepsStore(sv);
    EncodedName(v);
    ReplaceKeepsAbsent(sv, "+", "_", ' ');
    ReplaceKeepsAbsent(sv, "+", "_", '&');
    StoreAndSuffixPlain(PlaylistNameSpec(v));
  }

  /** The store and the suffix add neither white space nor `&` to a name. */
  lemma StoreAndSuffixPlain(name: string)
    requires ' ' !in name && '&' !in name
    ensures ' ' !in PLAYLIST_STORE + "/" + name + ".m3u" && '&' !in PLAYLIST_STORE + "/" + name + ".m3u"
  {
  }

  /** Turning `+` into `_` in a playlist path only touches the name between the store and `.m3u`. */
  lemma PathKeepsStore(name: string)
    ensures ReplaceAll(PLAYLIST_STORE + "/" + name + ".m3u", "+", "_")
            == PLAYLIST_STORE + "/" + ReplaceAll(name, "+", "_") + ".m3u"
  {
    ReplaceCharConcat(PLAYLIST_STORE + "/" + name, ".m3u", '+', "_");
    ReplaceCharConcat(PLAYLIST_STORE + "/", name, '+', "_");
    ReplaceAbsent(PLAYLIST_STORE + "/", '+', "_");
    ReplaceAbsent(".m3u", '+', "_");
  }
}
