/** Cutting a notification down to the length the chat accepts. */
module WatchMessage {
  import opened DeliveryChunks

  const LIMIT: nat := 3500

  function Decimal(n: nat): string {
    var digit := ["0", "1", "2", "3", "4", "5", "6", "7", "8", "9"][n % 10];
    if n < 10 then digit else Decimal(n / 10) + digit
  }

  function Join(parts: seq<string>): string {
    if parts == [] then ""
    else if |parts| == 1 then parts[0]
    else Join(parts[..|parts| - 1]) + "\n" + parts[|parts| - 1]
  }

  /** The fixed parts of a message and the two lists that can be shortened from their end. */
  datatype Draft = Draft(header: string, commits: seq<string>, changes: seq<string>,
                         attention: seq<string>, footer: seq<string>)

  /** What is shown of a draft: so many commits and so many changes; the rest is counted. */
  function Parts(d: Draft, commits: nat, changes: nat): seq<string>
    requires commits <= |d.commits| && changes <= |d.changes|
  {
    [d.header] + CommitPart(d, commits) + ChangePart(d, changes) + AttentionPart(d) + [""] + d.footer
  }

  function CommitPart(d: Draft, commits: nat): seq<string>
    requires commits <= |d.commits|
  {
    d.commits[..commits] + if commits < |d.commits| then [HiddenCommits(|d.commits| - commits)] else []
  }

  function ChangePart(d: Draft, changes: nat): seq<string>
    requires changes <= |d.changes|
  {
    if d.changes == [] then []
    else
      ["", "状态变化："] + d.changes[..changes]
      + if changes < |d.changes| then [HiddenChanges(|d.changes| - changes)] else []
  }

  function AttentionPart(d: Draft): seq<string> {
    if d.attention == [] then [] else ["", "需要审查方处理："] + d.attention
  }

  function HiddenCommits(n: nat): string { "……另有 " + Decimal(n) + " 个提交，见链接" }

  function HiddenChanges(n: nat): string { "……另有 " + Decimal(n) + " 项变化，见看板" }

  function Render(d: Draft, commits: nat, changes: nat): string
    requires commits <= |d.commits| && changes <= |d.changes|
  {
    Join(Parts(d, commits, changes))
  }

  /** Commits and changes left after `t` removals: changes go first, from the last on, then commits. */
  function Left(commits: nat, changes: nat, t: nat): (left: (nat, nat))
    requires t <= commits + changes
    ensures left.0 + left.1 + t == commits + changes && left.0 <= commits && left.1 <= changes
    ensures left.0 < commits ==> left.1 == 0
  {
    if t <= changes then (commits, changes - t) else (commits + changes - t, 0)
  }

  /** The version of a message after `t` removals. */
  function Version(render: (nat, nat) -> string, commits: nat, changes: nat, t: nat): string
    requires t <= commits + changes
  {
    var left := Left(commits, changes, t);
    render(left.0, left.1)
  }

  /**
   The message is the first version short enough, counting removals one by one; if none is, the
   shortest version is cut off at the limit.
   */
  method Trim(commits: nat, changes: nat, render: (nat, nat) -> string) returns (text: string, removed: nat)
    ensures |text| <= 3500 && removed <= commits + changes
    ensures forall t | 0 <= t < removed :: |Version(render, commits, changes, t)| > LIMIT
    ensures var version := Version(render, commits, changes, removed);
            if |version| <= LIMIT then text == version
            else removed == commits + changes && text == version[..LIMIT]
  {
    var shown, shownChanges := commits, changes;
    text := render(shown, shownChanges);
    removed := 0;
    while |text| > LIMIT && (shownChanges > 0 || shown > 0)
      invariant removed <= commits + changes && (shown, shownChanges) == Left(commits, changes, removed)
      invariant text == render(shown, shownChanges)
      invariant forall t | 0 <= t < removed :: |Version(render, commits, changes, t)| > LIMIT
      decreases shown + shownChanges
    {
      assert text == Version(render, commits, changes, removed);
      if shownChanges > 0 {
        shownChanges := shownChanges - 1;
      } else {
        shown := shown - 1;
      }
      removed := removed + 1;
      text := render(shown, shownChanges);
    }
    if |text| > LIMIT { text := text[..LIMIT]; }
  }

  function RenderOf(d: Draft): (nat, nat) -> string {
    (commits: nat, changes: nat) => if commits <= |d.commits| && changes <= |d.changes| then Render(d, commits, changes) else ""
  }

  // ---- Reading a message back -----------------------------------------------------------

  function Digit(c: char): nat { if '0' <= c <= '9' then c as nat - '0' as nat else 0 }

  function Value(digits: string): nat {
    if digits == "" then 0 else 10 * Value(digits[..|digits| - 1]) + Digit(digits[|digits| - 1])
  }

  /** The printed number is the number. */
  lemma {:induction false} DecimalReadsBack(n: nat)
    ensures Decimal(n) != "" && Value(Decimal(n)) == n && OneLine(Decimal(n))
  {
    if n >= 10 {
      DecimalReadsBack(n / 10);
      var s := Decimal(n);
      assert s[..|s| - 1] == Decimal(n / 10);
    } else {
      assert Decimal(n)[..0] == "";
    }
  }

  predicate AllOneLine(parts: seq<string>) { forall p | p in parts :: OneLine(p) }

  lemma {:induction false} JoinReadsBack(parts: seq<string>)
    requires parts != [] && AllOneLine(parts)
    ensures SplitLines(Join(parts)) == parts
  {
    var last := parts[|parts| - 1];
    assert last in parts;
    if |parts| == 1 {
      SplitOneLine(last);
    } else {
      var front := parts[..|parts| - 1];
      assert parts == front + [last];
      assert AllOneLine(front) by { assert forall p | p in front :: p in parts; }
      JoinReadsBack(front);
      SplitAppend(Join(front), last);
    }
  }

  lemma BothOneLine(a: seq<string>, b: seq<string>)
    requires AllOneLine(a) && AllOneLine(b)
    ensures AllOneLine(a + b)
  {}

  lemma HiddenAreOneLine(n: nat)
    ensures OneLine(HiddenCommits(n)) && OneLine(HiddenChanges(n))
  {
    DecimalReadsBack(n);
  }

  predicate OneLiners(d: Draft) {
    && OneLine(d.header) && AllOneLine(d.commits) && AllOneLine(d.changes)
    && AllOneLine(d.attention) && AllOneLine(d.footer)
  }

  lemma CommitPartIsOneLine(d: Draft, commits: nat)
    requires OneLiners(d) && commits <= |d.commits|
    ensures AllOneLine(CommitPart(d, commits))
  {
    HiddenAreOneLine(|d.commits| - commits);
    assert AllOneLine(d.commits[..commits]) by { assert forall p | p in d.commits[..commits] :: p in d.commits; }
  }

  lemma ChangePartIsOneLine(d: Draft, changes: nat)
    requires OneLiners(d) && changes <= |d.changes|
    ensures AllOneLine(ChangePart(d, changes))
  {
    HiddenAreOneLine(|d.changes| - changes);
    assert AllOneLine(d.changes[..changes]) by { assert forall p | p in d.changes[..changes] :: p in d.changes; }
  }

  lemma PartsAreOneLine(d: Draft, commits: nat, changes: nat)
    requires OneLiners(d) && commits <= |d.commits| && changes <= |d.changes|
    ensures AllOneLine(Parts(d, commits, changes))
  {
    var first, second, third := CommitPart(d, commits), ChangePart(d, changes), AttentionPart(d);
    CommitPartIsOneLine(d, commits);
    ChangePartIsOneLine(d, changes);
    assert AllOneLine(third);
    BothOneLine([d.header], first);
    BothOneLine([d.header] + first, second);
    BothOneLine([d.header] + first + second, third);
    BothOneLine([d.header] + first + second + third, [""]);
    BothOneLine([d.header] + first + second + third + [""], d.footer);
  }

  lemma Positions(header: string, commits: seq<string>, hidden: seq<string>, rest: seq<string>)
    requires rest != []
    ensures var lines := [header] + (commits + hidden + rest);
            && |lines| > |commits| + 1 && lines[0] == header && lines[1..|commits| + 1] == commits
            && (hidden != [] ==> lines[|commits| + 1] == hidden[0])
  {}

  /** A header, the commits shown, and then, where some are left out, the line that counts them. */
  predicate Tells(lines: seq<string>, d: Draft, shown: nat)
    requires shown <= |d.commits|
  {
    && |lines| > shown + 1 && lines[0] == d.header && lines[1..shown + 1] == d.commits[..shown]
    && (shown < |d.commits| ==> lines[shown + 1] == HiddenCommits(|d.commits| - shown))
  }

  lemma PartsTell(d: Draft, shown: nat, changes: nat)
    requires shown <= |d.commits| && changes <= |d.changes|
    ensures Tells(Parts(d, shown, changes), d, shown)
  {
    var hidden := if shown < |d.commits| then [HiddenCommits(|d.commits| - shown)] else [];
    var second, third := ChangePart(d, changes), AttentionPart(d);
    Regroup([d.header], d.commits[..shown] + hidden, second, third, [""] + d.footer);
    assert Parts(d, shown, changes) == [d.header] + (d.commits[..shown] + hidden) + second + third + ([""] + d.footer);
    Positions(d.header, d.commits[..shown], hidden, second + third + ([""] + d.footer));
  }

  lemma Regroup<T>(a: seq<T>, b: seq<T>, c: seq<T>, d: seq<T>, e: seq<T>)
    ensures a + b + c + d + e == a + (b + (c + d + e))
  {}

  /**
   A message that was not cut off, read line by line: the header, the commits shown in order, and,
   where some are left out, a line whose number and the lines shown add up to all of them.
   */
  lemma MessageReadsBack(d: Draft, t: nat)
    requires OneLiners(d) && t <= |d.commits| + |d.changes|
    ensures var shown := Left(|d.commits|, |d.changes|, t).0;
            && Tells(SplitLines(Version(RenderOf(d), |d.commits|, |d.changes|, t)), d, shown)
            && shown + Value(Decimal(|d.commits| - shown)) == |d.commits|
  {
    var shown, changes := Left(|d.commits|, |d.changes|, t).0, Left(|d.commits|, |d.changes|, t).1;
    DecimalReadsBack(|d.commits| - shown);
    PartsAreOneLine(d, shown, changes);
    JoinReadsBack(Parts(d, shown, changes));
    PartsTell(d, shown, changes);
  }

  /** The lines of a message that shows so many commits and changes. */
  predicate ReadsAs(lines: seq<string>, d: Draft, shown: nat, changes: nat)
    requires shown <= |d.commits| && changes <= |d.changes|
  {
    lines == [d.header]
             + (d.commits[..shown]
                + if shown < |d.commits| then ["……另有 " + Decimal(|d.commits| - shown) + " 个提交，见链接"] else [])
             + (if d.changes == [] then []
                else ["", "状态变化："] + d.changes[..changes]
                     + (if changes < |d.changes| then ["……另有 " + Decimal(|d.changes| - changes) + " 项变化，见看板"] else []))
             + (if d.attention == [] then [] else ["", "需要审查方处理："] + d.attention)
             + [""] + d.footer
  }

  lemma PartsReadAs(d: Draft, shown: nat, changes: nat)
    requires shown <= |d.commits| && changes <= |d.changes|
    ensures ReadsAs(Parts(d, shown, changes), d, shown, changes)
  {}

  /** A message that was not cut off, line by line: nothing is shown twice, lost, or out of its section. */
  lemma MessageLines(d: Draft, t: nat)
    requires OneLiners(d) && t <= |d.commits| + |d.changes|
    ensures var (shown, changes) := Left(|d.commits|, |d.changes|, t);
            ReadsAs(SplitLines(Version(RenderOf(d), |d.commits|, |d.changes|, t)), d, shown, changes)
  {
    var (shown, changes) := Left(|d.commits|, |d.changes|, t);
    PartsAreOneLine(d, shown, changes);
    JoinReadsBack(Parts(d, shown, changes));
    PartsReadAs(d, shown, changes);
  }
}
