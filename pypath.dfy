/** The parts of Python's `os.path` (POSIX flavour, `posixpath`) that the
    fixer relies on: `join` of two components and `splitext`. */
module PyPath {

  /** The index of the last `c` before position `end` of `s`, or -1. */
  function RFindBefore(s: string, c: char, end: nat): (r: int)
    requires end <= |s|
    ensures -1 <= r < end
    ensures r >= 0 ==> s[r] == c
    decreases end
  {
    if end == 0 then -1
    else if s[end - 1] == c then end - 1
    else RFindBefore(s, c, end - 1)
  }

  /** No `c` lies between the one found and `end`. */
  lemma {:induction false} RFindBeforeIsLast(s: string, c: char, end: nat)
    requires end <= |s|
    ensures forall j :: RFindBefore(s, c, end) < j < end ==> s[j] != c
    decreases end
  {
    if end > 0 && s[end - 1] != c {
      RFindBeforeIsLast(s, c, end - 1);
    }
  }

  /** `s.rfind(c)`: the index of the last `c` in `s`, or -1 when there is none. */
  function RFind(s: string, c: char): (r: int)
    ensures -1 <= r < |s|
    ensures r >= 0 ==> s[r] == c
  {
    RFindBefore(s, c, |s|)
  }

  /** No `c` follows the one `RFind` finds. */
  lemma RFindIsLast(s: string, c: char)
    ensures forall j :: RFind(s, c) < j < |s| ==> s[j] != c
  {
    RFindBeforeIsLast(s, c, |s|);
  }

  /** Looking for `c` before `end` only sees the first `end` characters. */
  lemma {:induction false} RFindBeforePrefix(s: string, t: string, c: char, end: nat)
    requires end <= |s|
    ensures RFindBefore(s + t, c, end) == RFindBefore(s, c, end)
    decreases end
  {
    if end > 0 {
      assert (s + t)[end - 1] == s[end - 1];
      RFindBeforePrefix(s, t, c, end - 1);
    }
  }

  /** Skipping text that holds no `c` leaves the last `c` where it was. */
  lemma {:induction false} RFindBeforeSkip(s: string, t: string, c: char, k: nat)
    requires c !in t && k <= |t|
    ensures RFindBefore(s + t, c, |s| + k) == RFindBefore(s, c, |s|)
    decreases k
  {
    if k == 0 {
      RFindBeforePrefix(s, t, c, |s|);
    } else {
      assert (s + t)[|s| + k - 1] == t[k - 1];
      assert t[k - 1] in t;
      RFindBeforeSkip(s, t, c, k - 1);
    }
  }

  /** Appending text that holds no `c` leaves the last `c` where it was. */
  lemma RFindAppend(s: string, t: string, c: char)
    requires c !in t
    ensures RFind(s + t, c) == RFind(s, c)
  {
    RFindBeforeSkip(s, t, c, |t|);
  }

  /** `os.path.join(a, b)`: an absolute `b` replaces `a`; otherwise `b` is
      appended to `a`, with a `/` in between unless `a` is empty or already
      ends with one.
      The joined path ends with `b`; it starts with `a` unless `b` is
      absolute, in which case it is `b`. */
  function Join(a: string, b: string): (r: string)
    ensures |b| <= |r| && r[|r| - |b|..] == b
    ensures (b == [] || b[0] != '/') ==> |a| <= |r| && r[..|a|] == a
    ensures (b != [] && b[0] == '/') ==> r == b
  {
    if b != [] && b[0] == '/' then b
    else if a == [] || a[|a| - 1] == '/' then a + b
    else a + "/" + b
  }

  /** `p[lo..hi]` is made of dots only: the scan of `splitext` for a
      character of the file name, before its last dot, that is not a dot. */
  predicate AllDots(p: string, lo: nat, hi: nat)
    requires lo <= hi <= |p|
    decreases hi - lo
  {
    lo == hi || (p[lo] == '.' && AllDots(p, lo + 1, hi))
  }

  lemma {:induction false} AllDotsIff(p: string, lo: nat, hi: nat)
    requires lo <= hi <= |p|
    ensures AllDots(p, lo, hi) <==> forall k :: lo <= k < hi ==> p[k] == '.'
    decreases hi - lo
  {
    if lo < hi {
      AllDotsIff(p, lo + 1, hi);
    }
  }

  /** `os.path.splitext(p)`: the extension is the text from the last `.`
      after the last `/`, provided the final component has some character
      other than `.` before that dot (so `.bashrc` and `..` have none). */
  function SplitExt(p: string): (r: (string, string))
    ensures r.0 + r.1 == p
  {
    var sep := RFind(p, '/');
    var dot := RFind(p, '.');
    if sep < dot && !AllDots(p, sep + 1, dot) then (p[..dot], p[dot..])
    else (p, "")
  }

  /** The extension is empty, or a dot followed by text holding neither a
      dot nor a `/`. */
  lemma SplitExtShape(p: string)
    ensures var ext := SplitExt(p).1;
      ext == [] || (ext[0] == '.' && '/' !in ext && '.' !in ext[1..])
  {
    var sep := RFind(p, '/');
    var dot := RFind(p, '.');
    if sep < dot && !AllDots(p, sep + 1, dot) {
      assert '/' !in p[dot..] by {
        RFindIsLast(p, '/');
        forall j | 0 <= j < |p[dot..]| ensures p[dot..][j] != '/' {
          assert p[dot..][j] == p[dot + j];
        }
      }
      assert '.' !in p[dot..][1..] by {
        RFindIsLast(p, '.');
        forall j | 0 <= j < |p[dot..][1..]| ensures p[dot..][1..][j] != '.' {
          assert p[dot..][1..][j] == p[dot + 1 + j];
        }
      }
    }
  }

  /** A non-empty extension starts at the last dot, which lies after the
      last `/`, and the file name before that dot holds a character other
      than `.`: leading dots never start an extension. */
  lemma SplitExtLeadingDots(p: string)
    ensures var root := SplitExt(p).0;
      SplitExt(p).1 != [] ==>
        && RFind(p, '.') == |root|
        && RFind(p, '/') < |root|
        && !AllDots(p, RFind(p, '/') + 1, |root|)
  {
  }

  /** The directory part of `p` up to and including its last `/` (the text
      `os.path.dirname` is taken from). */
  function DirPrefix(p: string): (r: string)
    ensures |r| <= |p| && r == p[..|r|]
  {
    p[..RFind(p, '/') + 1]
  }

  /** In `dir + stem + ext`, the last `/` ends `dir` (or there is none). */
  lemma RFindSepOfNamed(dir: string, stem: string, ext: string)
    requires dir == [] || dir[|dir| - 1] == '/'
    requires '/' !in stem && '/' !in ext
    ensures RFind(dir + stem + ext, '/') == |dir| - 1
  {
    assert '/' !in stem + ext;
    assert dir + stem + ext == dir + (stem + ext);
    RFindAppend(dir, stem + ext, '/');
  }

  /** In `dir + stem + ext`, the last `.` starts `ext`. */
  lemma RFindDotOfNamed(dir: string, stem: string, ext: string)
    requires |ext| >= 1 && ext[0] == '.' && '.' !in ext[1..]
    ensures RFind(dir + stem + ext, '.') == |dir| + |stem|
  {
    assert dir + stem + ext == (dir + stem + ".") + ext[1..];
    RFindAppend(dir + stem + ".", ext[1..], '.');
  }

  /** A name `dir + stem + ext`, where `dir` is empty or ends in `/`, the stem
      has no `/` and some character other than `.`, and `ext` is a dot followed
      by text without `.` or `/`, splits into `dir + stem` and `ext`. */
  lemma SplitExtOfNamed(dir: string, stem: string, ext: string)
    requires dir == [] || dir[|dir| - 1] == '/'
    requires '/' !in stem
    requires exists k :: 0 <= k < |stem| && stem[k] != '.'
    requires |ext| >= 1 && ext[0] == '.' && '.' !in ext[1..] && '/' !in ext[1..]
    ensures SplitExt(dir + stem + ext) == (dir + stem, ext)
  {
    var p := dir + stem + ext;
    var dot := |dir| + |stem|;
    assert '/' !in ext by {
      assert ext == [ext[0]] + ext[1..];
    }
    RFindSepOfNamed(dir, stem, ext);
    RFindDotOfNamed(dir, stem, ext);
    assert !AllDots(p, |dir|, dot) by {
      AllDotsIff(p, |dir|, dot);
      var k :| 0 <= k < |stem| && stem[k] != '.';
      assert p[|dir| + k] == stem[k];
    }
    assert p[..dot] == dir + stem && p[dot..] == ext;
  }
}
