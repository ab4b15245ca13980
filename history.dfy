/** The history file's text and the in-memory history (newest entry first).
    Loading (nsh.js:29-32, 90-93) splits the file on newlines, reverses it
    to newest-first and drops blank lines; saving at exit (nsh.js:98-99)
    keeps the newest 250 entries, turns them oldest-first and joins them
    with newlines. */
module History {
  import opened Text

  /** The number of entries kept when the history is saved (nsh.js:98). */
  const Cap: nat := 250

  /** `lines.filter(line => line.trim() !== '')` */
  function NonBlank(lines: seq<string>): (r: seq<string>)
    ensures forall line :: line in r ==> !IsBlank(line)
    ensures forall x :: multiset(r)[x] == if IsBlank(x) then 0 else multiset(lines)[x]
    ensures IsSubsequence(r, lines)
  {
    Filter(lines, (line: string) => !IsBlank(line))
  }

  /** The entries that one load of the history file's text appends to the in-memory history. */
  function LoadLines(text: string): (r: seq<string>)
    ensures forall line :: line in r ==> !IsBlank(line) && '\n' !in line
    ensures forall x :: multiset(r)[x] == if IsBlank(x) then 0 else multiset(Split(text))[x]
    ensures IsSubsequence(r, Reverse(Split(text)))
  {
    NonBlank(Reverse(Split(text)))
  }

  /** `if (history.length > 250) history.length = 250`: the newest `Cap` entries. */
  function Retain(history: seq<string>): (r: seq<string>)
    ensures |r| <= Cap
    ensures |history| > Cap ==> |r| == Cap
    ensures r <= history
    ensures |history| <= Cap ==> r == history
  {
    if |history| > Cap then history[..Cap] else history
  }

  /** `history.reverse().join('\n')` after the truncation: the text written to the history file. */
  function SavedText(history: seq<string>): (r: string)
    ensures Retain(history) != [] && (forall i :: 0 <= i < |history| ==> '\n' !in history[i]) ==>
      Split(r) == Reverse(Retain(history))
  {
    var oldestFirst := Reverse(Retain(history));
    assert Retain(history) != [] && (forall i :: 0 <= i < |history| ==> '\n' !in history[i]) ==>
      Split(Join(oldestFirst)) == oldestFirst
    by {
      if Retain(history) != [] && (forall i :: 0 <= i < |history| ==> '\n' !in history[i]) {
        forall i | 0 <= i < |oldestFirst| ensures '\n' !in oldestFirst[i] {
          assert oldestFirst[i] == history[|oldestFirst| - 1 - i];
        }
        SplitJoin(oldestFirst);
      }
    }
    Join(oldestFirst)
  }

  /** An entry the file format can hold: not blank, and without a newline. */
  predicate Storable(entry: string) {
    !IsBlank(entry) && '\n' !in entry
  }

  /** Saving and then loading into an empty history gives back the newest
      `Cap` entries in the same order: the reversal on save and the one on
      load cancel. */
  lemma {:induction false} SaveLoadRoundTrip(history: seq<string>)
    requires forall i :: 0 <= i < |history| ==> Storable(history[i])
    ensures LoadLines(SavedText(history)) == Retain(history)
  {
    var kept := Retain(history);
    var oldestFirst := Reverse(kept);
    if kept == [] {
      assert Split(SavedText(history)) == [[]];
      assert Reverse<string>([[]]) == [[]];
      assert IsBlank([]);
    } else {
      forall i | 0 <= i < |oldestFirst| ensures '\n' !in oldestFirst[i] {
        assert oldestFirst[i] == kept[|kept| - 1 - i] == history[|kept| - 1 - i];
      }
      SplitJoin(oldestFirst);
      ReverseReverse(kept);
      forall i | 0 <= i < |kept| ensures !IsBlank(kept[i]) {
        assert kept[i] == history[i];
      }
      FilterKeepsAll(kept, (line: string) => !IsBlank(line));
    }
  }

  /** At most `Cap` entries are saved, whatever the history held. */
  lemma SavedAtMostCap(history: seq<string>)
    requires forall i :: 0 <= i < |history| ==> Storable(history[i])
    ensures |LoadLines(SavedText(history))| <= Cap
    ensures |history| <= Cap ==> LoadLines(SavedText(history)) == history
  {
    SaveLoadRoundTrip(history);
  }
}
