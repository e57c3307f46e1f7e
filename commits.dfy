/** One synthetic commit (`generate_commit`, main.py:182-203) and its git-log rendering
    (`format_commit`, main.py:206-218). */
module Commits {
  import opened Wrappers
  import opened Text
  import Catalog

  /** `Commit` (main.py:108-116) */
  datatype Commit = Commit(
    commitHash: string,
    author: string,
    date: string,
    message: string,
    service: string,
    filesChanged: int,
    insertions: int,
    deletions: int)

  /** What one commit consumes from the random source (main.py:184-192): seven hex positions,
      the author, the type and the text of the message, and the three `randint` stats. */
  datatype CommitDraw = CommitDraw(
    hashDigits: seq<Catalog.HexIndex>,
    author: Catalog.DeveloperIndex,
    commitType: Catalog.CommitTypeIndex,
    text: Catalog.CommitTextIndex,
    filesChanged: int,
    insertions: int,
    deletions: int)

  /** `k=7` and the ranges of the `randint` calls at main.py:190-192. */
  predicate CommitDrawInRange(d: CommitDraw) {
    |d.hashDigits| == 7 &&
    1 <= d.filesChanged <= 15 && 5 <= d.insertions <= 200 && 1 <= d.deletions <= 100
  }

  /** A commit hash as consumers match it: `^[0-9a-f]{7}$`. */
  predicate IsCommitHash(h: string) {
    |h| == 7 && forall i :: 0 <= i < |h| ==> Catalog.IsLowerHex(h[i])
  }

  /** `''.join(...)` of the chosen hex characters. */
  function HexString(digits: seq<Catalog.HexIndex>): (h: string)
    ensures |h| == |digits|
    ensures forall i :: 0 <= i < |h| ==> Catalog.IsLowerHex(h[i])
    decreases |digits|
  {
    if |digits| == 0 then ""
    else
      Catalog.HexDigitsAreLowerHex(digits[0]);
      [Catalog.HEX_DIGITS[digits[0]]] + HexString(digits[1..])
  }

  /** `f"{commit_type}: {message}"` (main.py:188) */
  function CommitMessage(commitType: string, text: string): string {
    commitType + ": " + text
  }

  /** Reads a message back into its type (up to the first colon) and its text. */
  function SplitCommitMessage(message: string): (string, string) {
    var i := IndexOf(message, ':');
    (message[..i], if i + 2 <= |message| then message[i + 2..] else "")
  }

  lemma SplitCommitMessageRoundTrip(commitType: string, text: string)
    requires ':' !in commitType
    ensures SplitCommitMessage(CommitMessage(commitType, text)) == (commitType, text)
  {
    var m := CommitMessage(commitType, text);
    assert m == commitType + (": " + text);
    IndexOfStops(commitType, ':', ": " + text);
    assert m[..|commitType|] == commitType;
    assert m[|commitType| + 2..] == text;
  }

  /** `generate_commit(service, timestamp)`, with the clock's text for the date (`strftime` to
      seconds) supplied by `stamp`. */
  function GenerateCommit(service: string, timestamp: int, d: CommitDraw, stamp: int -> string): (c: Commit)
    ensures c.service == service && c.date == stamp(timestamp)
    ensures c.author in Catalog.DEVELOPERS
    ensures var (commitType, text) := SplitCommitMessage(c.message);
            c.message == CommitMessage(commitType, text) &&
            commitType in Catalog.COMMIT_TYPES && text in Catalog.COMMIT_MESSAGES
    ensures CommitDrawInRange(d) ==>
              IsCommitHash(c.commitHash) &&
              1 <= c.filesChanged <= 15 && 5 <= c.insertions <= 200 && 1 <= c.deletions <= 100
  {
    var commitType := Catalog.COMMIT_TYPES[d.commitType];
    var text := Catalog.COMMIT_MESSAGES[d.text];
    Catalog.CommitTypesArePlain(d.commitType);
    SplitCommitMessageRoundTrip(commitType, text);
    Commit(HexString(d.hashDigits), Catalog.DEVELOPERS[d.author], stamp(timestamp),
           CommitMessage(commitType, text), service, d.filesChanged, d.insertions, d.deletions)
  }

  // ---------------------------------------------------------------------------------------------
  // The git-log block

  /** `format_commit(commit)` (main.py:206-218): the adjacent f-string pieces, each beginning
      with the line break that ends the line before it. */
  function FormatCommit(c: Commit): string {
    "commit " + c.commitHash +
    ("\nAuthor: " + c.author +
    ("\nDate:   " + c.date +
    ("\nService: " + c.service +
    ("\n\n    " + c.message +
    ("\n\n    " + IntToString(c.filesChanged) +
    (" files changed, " + IntToString(c.insertions) +
    (" insertions(+), " + IntToString(c.deletions) +
    " deletions(-)\n")))))))
  }

  /** The literal text of the block around its eight fields. */
  const COMMIT_LAYOUT: seq<string> := [
    "commit ", "\nAuthor: ", "\nDate:   ", "\nService: ", "\n\n    ", "\n\n    ",
    " files changed, ", " insertions(+), ", " deletions(-)\n"
  ]

  /** The fields of the block, in the order they appear. */
  function CommitFields(c: Commit): seq<string> {
    [ c.commitHash, c.author, c.date, c.service, c.message,
      IntToString(c.filesChanged), IntToString(c.insertions), IntToString(c.deletions) ]
  }

  lemma FormatCommitLayout(c: Commit)
    ensures FormatCommit(c) == Render(COMMIT_LAYOUT, CommitFields(c))
  {
    var l, f := COMMIT_LAYOUT, CommitFields(c);
    assert Render(l[8..], f[8..]) == " deletions(-)\n";
    assert Render(l[7..], f[7..]) == " insertions(+), " + f[7] + Render(l[8..], f[8..]);
    assert Render(l[6..], f[6..]) == " files changed, " + f[6] + Render(l[7..], f[7..]);
    assert Render(l[5..], f[5..]) == "\n\n    " + f[5] + Render(l[6..], f[6..]);
    assert Render(l[4..], f[4..]) == "\n\n    " + f[4] + Render(l[5..], f[5..]);
    assert Render(l[3..], f[3..]) == "\nService: " + f[3] + Render(l[4..], f[4..]);
    assert Render(l[2..], f[2..]) == "\nDate:   " + f[2] + Render(l[3..], f[3..]);
    assert Render(l[1..], f[1..]) == "\nAuthor: " + f[1] + Render(l[2..], f[2..]);
  }

  /** Every block starts with `commit ` and ends with a line break. */
  lemma FormatCommitShape(c: Commit)
    ensures "commit " <= FormatCommit(c)
    ensures |FormatCommit(c)| > 0 && FormatCommit(c)[|FormatCommit(c)| - 1] == '\n'
  {
    FormatCommitLayout(c);
    RenderStartsWith(COMMIT_LAYOUT, CommitFields(c));
  }

  /** Reads a block back into the commit it shows. */
  function ParseCommit(s: string): Option<Commit> {
    match Unrender(s, COMMIT_LAYOUT)
    case None => None
    case Some(parsed) =>
      var fields := parsed.0;
      if |fields| != 8 || parsed.1 != "" then None
      else
        match (ParseInt(fields[5]), ParseInt(fields[6]), ParseInt(fields[7]))
        case (Some(files), Some(ins), Some(del)) =>
          Some(Commit(fields[0], fields[1], fields[2], fields[4], fields[3], files, ins, del))
        case _ => None
  }

  /** The text fields hold no line break. */
  predicate OneLine(c: Commit) {
    '\n' !in c.commitHash && '\n' !in c.author && '\n' !in c.date &&
    '\n' !in c.service && '\n' !in c.message
  }

  lemma NumeralHasNoSpace(x: int)
    ensures ' ' !in IntToString(x)
  {
    assert !IsDigit(' ');
  }

  lemma CommitFieldsSeparable(c: Commit)
    requires OneLine(c)
    ensures Separable(COMMIT_LAYOUT, CommitFields(c))
  {
    NumeralHasNoSpace(c.filesChanged);
    NumeralHasNoSpace(c.insertions);
    NumeralHasNoSpace(c.deletions);
    assert COMMIT_LAYOUT[1..] == ["\nAuthor: ", "\nDate:   ", "\nService: ", "\n\n    ", "\n\n    ",
                                  " files changed, ", " insertions(+), ", " deletions(-)\n"];
  }

  /** A block reads back into exactly the commit it was rendered from. */
  lemma ParseFormatCommit(c: Commit)
    requires OneLine(c)
    ensures ParseCommit(FormatCommit(c)) == Some(c)
  {
    var f := CommitFields(c);
    FormatCommitLayout(c);
    CommitFieldsSeparable(c);
    UnrenderRender(COMMIT_LAYOUT, f, "");
    assert Render(COMMIT_LAYOUT, f) + "" == FormatCommit(c);
    ParseIntToString(c.filesChanged);
    ParseIntToString(c.insertions);
    ParseIntToString(c.deletions);
  }
}
