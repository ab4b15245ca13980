/** Tab completion (nsh.js:111-118). The candidate pool is the names the
    shell-command library exports followed by the entries of the current
    directory; the candidates are the pool entries that start with the
    typed line, or the whole pool when none does. The two lists are read
    by the source on every call; here they are parameters. */
module Completer {
  import opened Text

  /** `shellCommands.concat(fsEntries)` */
  function Pool(shellKeys: seq<string>, dirEntries: seq<string>): (r: seq<string>)
    ensures |r| == |shellKeys| + |dirEntries|
    ensures r[..|shellKeys|] == shellKeys && r[|shellKeys|..] == dirEntries
  {
    shellKeys + dirEntries
  }

  /** `allOptions.filter(cmd => cmd.startsWith(line))` */
  function Hits(pool: seq<string>, line: string): (r: seq<string>)
    ensures forall x :: x in r <==> x in pool && line <= x
    ensures forall x :: multiset(r)[x] == if line <= x then multiset(pool)[x] else 0
    ensures IsSubsequence(r, pool)
  {
    Filter(pool, (cmd: string) => line <= cmd)
  }

  /** `completer(line)`: the pair of candidates and the line itself. */
  function Complete(line: string, shellKeys: seq<string>, dirEntries: seq<string>): (r: (seq<string>, string))
    ensures r.1 == line
    ensures IsSubsequence(r.0, Pool(shellKeys, dirEntries))
    ensures (exists x :: x in Pool(shellKeys, dirEntries) && line <= x) ==>
      && (forall x :: x in r.0 <==> x in Pool(shellKeys, dirEntries) && line <= x)
      && (forall x :: multiset(r.0)[x] == if line <= x then multiset(Pool(shellKeys, dirEntries))[x] else 0)
    ensures (forall x :: x in Pool(shellKeys, dirEntries) ==> !(line <= x)) ==> r.0 == Pool(shellKeys, dirEntries)
    ensures |Pool(shellKeys, dirEntries)| > 0 ==> |r.0| > 0
  {
    var allOptions := Pool(shellKeys, dirEntries);
    var hits := Hits(allOptions, line);
    SubsequenceOfItself(allOptions);
    (if |hits| > 0 then hits else allOptions, line)
  }

  /** Every name has the empty line as a prefix, so completing `""` offers the whole pool. */
  lemma CompleteEmptyLine(shellKeys: seq<string>, dirEntries: seq<string>)
    ensures Complete("", shellKeys, dirEntries).0 == shellKeys + dirEntries
  {
    var pool := Pool(shellKeys, dirEntries);
    FilterKeepsAll(pool, (cmd: string) => "" <= cmd);
  }

  /** In an empty directory, completing `""` offers exactly the library's command names. */
  lemma CompleteEmptyLineEmptyDirectory(shellKeys: seq<string>)
    ensures Complete("", shellKeys, []).0 == shellKeys
  {
    CompleteEmptyLine(shellKeys, []);
    assert shellKeys + [] == shellKeys;
  }
}
