/** The file name and the statement the `profile` command derives from the
    URL it is given (`ckan/cli/profile.py`). */
module ProfileCommand {
  import opened PyText

  /** The characters `re.sub("[/?]", ".", ...)` rewrites. */
  predicate IsSlashOrQuery(c: char) {
    c == '/' || c == '?'
  }

  /** The characters that read as `.` in the file name. */
  predicate BecomesDot(c: char) {
    IsSlashOrQuery(c) || c == '.'
  }

  /** `re.sub("[/?]", ".", s)`: a one-character pattern, so every match is
      replaced where it stands. */
  function SubSlashOrQuery(s: string): string {
    seq(|s|, i requires 0 <= i < |s| => if IsSlashOrQuery(s[i]) then '.' else s[i])
  }

  /** `output_filename`: `"ckan%s.profile"` around the URL with `/` replaced
      by `.` and then `/` and `?` replaced by `.`. */
  function OutputFilename(url: string): (name: string)
    ensures |name| == |url| + 12
    ensures name[..4] == "ckan" && name[|url| + 4..] == ".profile"
    ensures forall i :: 0 <= i < |url| ==> name[i + 4] == if IsSlashOrQuery(url[i]) then '.' else url[i]
    ensures forall i :: 0 <= i < |name| ==> !IsSlashOrQuery(name[i])
  {
    "ckan" + SubSlashOrQuery(ReplaceChar(url, '/', '.')) + ".profile"
  }

  /** The first replacement is subsumed by the second: the name depends only
      on the pattern substitution. */
  lemma ReplaceIsRedundant(url: string)
    ensures OutputFilename(url) == "ckan" + SubSlashOrQuery(url) + ".profile"
  {
    var name := OutputFilename(url);
    var other := "ckan" + SubSlashOrQuery(url) + ".profile";
    assert |name| == |other|;
    forall i | 0 <= i < |name| ensures name[i] == other[i] {
      if 4 <= i < |url| + 4 {
        assert other[i] == SubSlashOrQuery(url)[i - 4];
      }
    }
  }

  /** Two URLs that differ only in which separators they use share a file. */
  lemma SeparatorsCollide(u: string, v: string)
    requires |u| == |v|
    requires forall i :: 0 <= i < |u| ==> u[i] == v[i] || (BecomesDot(u[i]) && BecomesDot(v[i]))
    ensures OutputFilename(u) == OutputFilename(v)
  {
    var a, b := OutputFilename(u), OutputFilename(v);
    forall i | 0 <= i < |a| ensures a[i] == b[i] {
      if 4 <= i < |u| + 4 {
        assert a[i] == (if IsSlashOrQuery(u[i - 4]) then '.' else u[i - 4]);
        assert b[i] == (if IsSlashOrQuery(v[i - 4]) then '.' else v[i - 4]);
      }
    }
  }

  /** The usage example: `/data/search` is written to `ckan.data.search.profile`. */
  lemma DataSearchFile()
    ensures OutputFilename("/data/search") == "ckan.data.search.profile"
  {
  }

  /** `profile_command`: the statement handed to the profiler. */
  function ProfileStatement(url: string): (stmt: string)
    ensures |stmt| == |url| + 15
    ensures stmt[..13] == "profile_url('" && stmt[13..|url| + 13] == url && stmt[|url| + 13..] == "')"
  {
    "profile_url('" + url + "')"
  }

  /** The URL can be read back from the statement, so different URLs are
      profiled with different statements. */
  lemma ProfileStatementInjective(u: string, v: string)
    requires ProfileStatement(u) == ProfileStatement(v)
    ensures u == v
  {
    var s := ProfileStatement(u);
    assert u == s[13..|s| - 2];
  }
}
