/**
 * The commit inspector: two read-only git queries against a checkout,
 * the parsing of their output, and the fixed record returned when either
 * query fails.
 */
module CommitInspector {
  import opened Shell
  import opened Text

  /** An element taken from the array `split` returns: JavaScript's `undefined` when the array is too short. */
  datatype Field = Present(text: string) | Missing

  /** How a field reads inside a template literal. */
  function Render(f: Field): (text: string)
  {
    if f.Present? then f.text else "undefined"
  }

  /**
   * The timestamp of a record: the committed date as git printed it
   * (its locale rendering is not modelled), or the time of the failed lookup.
   */
  datatype Stamp = CommitDate(raw: Field) | CurrentTime

  datatype CommitInfo = CommitInfo(branch: string, hash: string, message: Field, author: Field, date: Stamp)

  const Unknown: string := "unknown"
  const LookupFailed: string := "获取失败"

  /** The record returned when a query fails. */
  const Fallback: CommitInfo := CommitInfo(Unknown, Unknown, Present(LookupFailed), Present(Unknown), CurrentTime)

  /** The separator of the `%H|%s|%an|%ad` log format. */
  const Bar: char := '|'

  function FieldAt(parts: seq<string>, i: nat): (f: Field)
  {
    if i < |parts| then Present(parts[i]) else Missing
  }

  /** `hash.substring(0, 8)`: the first eight characters, or all of a shorter hash. */
  function AbbreviateHash(h: string): (r: string)
    ensures r <= h
    ensures |r| == if |h| < 8 then |h| else 8
  {
    Substring(h, 0, 8)
  }

  lemma NoBarInPrefix(p: string, s: string)
    requires p <= s && Bar !in s
    ensures Bar !in p
  {
    assert forall i :: 0 <= i < |p| ==> p[i] == s[i];
  }

  /**
   * The record built from the outputs of the two queries: the branch is the
   * trimmed first output; the trimmed second output is split on `|` and its
   * pieces are, in order, hash, subject, author and date.
   */
  function ParseCommit(branchOut: string, logOut: string): (info: CommitInfo)
    ensures info.branch == Trim(branchOut)
    ensures var t := Trim(logOut);
      && info.hash <= t && Bar !in info.hash && |info.hash| <= 8
      && (|info.hash| == 8 || |info.hash| == |t| || t[|info.hash|] == Bar)
    ensures info.date.CommitDate?
  {
    var parts := Split(Trim(logOut), Bar);
    var hash := AbbreviateHash(parts[0]);
    NoBarInPrefix(hash, parts[0]);
    CommitInfo(Trim(branchOut), hash, FieldAt(parts, 1), FieldAt(parts, 2), CommitDate(FieldAt(parts, 3)))
  }

  /**
   * The inspector against a checkout: the branch query is issued; only if it
   * succeeds is the log query issued; any failure yields the fallback record.
   * Nothing is ever raised and no directory is touched.
   */
  function Inspect(o: Oracle, w: World, dir: Path): (res: (World, CommitInfo))
  {
    var branchQuery := GitCurrentBranch(dir);
    var branchReply := o(w, branchQuery);
    var w1 := w.Issue(branchQuery);
    if !branchReply.ok then (w1, Fallback)
    else
      var logQuery := GitLastCommit(dir);
      var logReply := o(w1, logQuery);
      var w2 := w1.Issue(logQuery);
      if !logReply.ok then (w2, Fallback) else (w2, ParseCommit(branchReply.stdout, logReply.stdout))
  }

  /** The inspector's queries: the branch query, and the log query only when the branch query succeeded. */
  function Queries(branchOk: bool, dir: Path): (cs: seq<Command>)
  {
    [GitCurrentBranch(dir)] + (if branchOk then [GitLastCommit(dir)] else [])
  }

  /**
   * What the inspector issues and returns: the branch query, then the log
   * query only when the branch query succeeded; the fallback record exactly
   * when one of them failed, the parsed record otherwise.
   */
  lemma InspectBehaviour(o: Oracle, w: World, dir: Path)
    ensures var (w', info) := Inspect(o, w, dir);
      var branchOk := o(w, GitCurrentBranch(dir)).ok;
      var w1 := w.Issue(GitCurrentBranch(dir));
      var bothOk := branchOk && o(w1, GitLastCommit(dir)).ok;
      && w'.dirs == w.dirs && w'.trace == w.trace + Queries(branchOk, dir)
      && (info == Fallback <==> !bothOk)
      && (!bothOk ==> info.branch == "unknown" && info.hash == "unknown" && info.author == Present("unknown")
                      && info.message == Present("获取失败") && info.date == CurrentTime)
      && (bothOk ==> info == ParseCommit(o(w, GitCurrentBranch(dir)).stdout, o(w1, GitLastCommit(dir)).stdout))
  {
    assert w.trace + [GitCurrentBranch(dir)] + [GitLastCommit(dir)] == w.trace + [GitCurrentBranch(dir), GitLastCommit(dir)];
  }

  /** None of the pieces holds a `|`. */
  predicate BarFree(parts: seq<string>)
  {
    forall i :: 0 <= i < |parts| ==> Bar !in parts[i]
  }

  /**
   * Output whose trimmed form is bar-free pieces joined by `|`: the hash is
   * abbreviated from the first piece, and subject, author and date are the
   * next three pieces, undefined where there are fewer.
   */
  lemma ParsePieces(branchOut: string, logOut: string, parts: seq<string>)
    requires |parts| >= 1 && BarFree(parts)
    requires Trim(logOut) == JoinWith(parts, Bar)
    ensures var info := ParseCommit(branchOut, logOut);
      && info.hash == AbbreviateHash(parts[0])
      && info.message == FieldAt(parts, 1) && info.author == FieldAt(parts, 2)
      && info.date == CommitDate(FieldAt(parts, 3))
  {
    SplitJoin(parts, Bar);
  }

  /** Joined pieces with no space at the outer ends are left alone by `trim`. */
  lemma TightJoin(parts: seq<string>)
    requires |parts| >= 2
    requires parts[0] == "" || !IsSpace(parts[0][0])
    requires var last := parts[|parts| - 1]; last == "" || !IsSpace(last[|last| - 1])
    ensures Tight(JoinWith(parts, Bar))
  {
    JoinWithEnds(parts, Bar);
    var j, first, last := JoinWith(parts, Bar), parts[0], parts[|parts| - 1];
    assert j[0] == if first == "" then Bar else first[0];
    assert j[|j| - 1] == if last == "" then Bar else last[|last| - 1];
  }

  /**
   * Output in the `%H|%s|%an|%ad` format, possibly surrounded by white space,
   * whose fields hold no `|`: the record carries the first eight characters of
   * the hash, and subject, author and date unchanged.
   */
  lemma ParseFormatted(branchOut: string, logOut: string, pre: string, post: string,
                       h: string, s: string, a: string, d: string)
    requires logOut == pre + JoinWith([h, s, a, d], Bar) + post
    requires AllSpace(pre) && AllSpace(post)
    requires BarFree([h, s, a, d])
    requires h == "" || !IsSpace(h[0])
    requires d == "" || !IsSpace(d[|d| - 1])
    ensures var info := ParseCommit(branchOut, logOut);
      && info.branch == Trim(branchOut)
      && info.hash == h[..if |h| < 8 then |h| else 8]
      && info.message == Present(s) && info.author == Present(a) && info.date == CommitDate(Present(d))
  {
    var parts := [h, s, a, d];
    TightJoin(parts);
    TrimOf(pre, JoinWith(parts, Bar), post);
    ParsePieces(branchOut, logOut, parts);
  }

  /** A subject `s1|s2` breaks the fields apart: s2 comes back as the author and the author as the date. */
  lemma SubjectWithBar(branchOut: string, logOut: string, h: string, s1: string, s2: string, a: string, d: string)
    requires Trim(logOut) == JoinWith([h, s1, s2, a, d], Bar)
    requires BarFree([h, s1, s2, a, d])
    ensures ParseCommit(branchOut, logOut)
         == CommitInfo(Trim(branchOut), AbbreviateHash(h), Present(s1), Present(s2), CommitDate(Present(a)))
  {
    ParsePieces(branchOut, logOut, [h, s1, s2, a, d]);
  }

  /** Output without any `|` leaves subject, author and date undefined. */
  lemma ParseWithoutBar(branchOut: string, logOut: string)
    requires Bar !in Trim(logOut)
    ensures var info := ParseCommit(branchOut, logOut);
      info.message == Missing && info.author == Missing && info.date == CommitDate(Missing)
      && info.hash == AbbreviateHash(Trim(logOut))
  {
    SplitPlain(Trim(logOut), Bar);
  }
}
