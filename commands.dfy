/**
  The five motion commands, their one-character wire codes, and the majority
  vote over the command history (`max(set(buf), key=buf.count)`).
 */
module Commands {

  datatype Cmd = Forward | Backward | Left | Right | Stop

  /** The one-character code sent as the `command` query parameter. */
  function Code(c: Cmd): (ch: char)
    ensures c == Forward <==> ch == 'f'
    ensures c == Backward <==> ch == 'b'
    ensures c == Left <==> ch == 'l'
    ensures c == Right <==> ch == 'r'
    ensures c == Stop <==> ch == 's'
  {
    match c
    case Forward => 'f'
    case Backward => 'b'
    case Left => 'l'
    case Right => 'r'
    case Stop => 's'
  }

  /** Distinct commands have distinct codes, so the wire value identifies the command. */
  lemma CodeInjective(c: Cmd, d: Cmd)
    requires Code(c) == Code(d)
    ensures c == d
  {
  }

  /** `buf.count(c)`: the number of occurrences of `c`. */
  function Count(buf: seq<Cmd>, c: Cmd): (n: nat)
    ensures n <= |buf|
    ensures 0 < n <==> c in buf
  {
    if buf == [] then 0
    else (if buf[0] == c then 1 else 0) + Count(buf[1..], c)
  }

  /** Two different commands together occur no more often than the buffer is long. */
  lemma {:induction false} CountPair(buf: seq<Cmd>, c: Cmd, d: Cmd)
    requires c != d
    ensures Count(buf, c) + Count(buf, d) <= |buf|
  {
    if buf != [] {
      CountPair(buf[1..], c, d);
    }
  }

  /** True of a command that occurs in the buffer no less often than any other command. */
  predicate IsMostCommon(buf: seq<Cmd>, c: Cmd) {
    c in buf && forall d :: Count(buf, d) <= Count(buf, c)
  }

  /** Scans `rest`, keeping the command with the highest count in `buf` seen so far
      (`best`); an earlier command keeps its place on a tie. */
  function Leader(buf: seq<Cmd>, rest: seq<Cmd>, best: Cmd): (c: Cmd)
    ensures c == best || c in rest
    ensures Count(buf, best) <= Count(buf, c)
    ensures forall d :: d in rest ==> Count(buf, d) <= Count(buf, c)
    decreases |rest|
  {
    if rest == [] then best
    else
      var next := if Count(buf, rest[0]) > Count(buf, best) then rest[0] else best;
      var c := Leader(buf, rest[1..], next);
      assert forall d :: d in rest ==> d == rest[0] || d in rest[1..];
      c
  }

  /** The majority command of the history.  Python leaves ties to the iteration order
      of a set; this model breaks them towards the command met first in the buffer,
      and only the maximality of its count is promised. */
  function MostCommon(buf: seq<Cmd>): (c: Cmd)
    requires 0 < |buf|
    ensures IsMostCommon(buf, c)
  {
    var c := Leader(buf, buf[1..], buf[0]);
    assert forall d :: d in buf ==> d == buf[0] || d in buf[1..];
    c
  }

  /** A command that occurs strictly more often than every other one is the one chosen. */
  lemma StrictLeaderChosen(buf: seq<Cmd>, c: Cmd)
    requires 0 < |buf|
    requires forall d :: d != c ==> Count(buf, d) < Count(buf, c)
    ensures MostCommon(buf) == c
  {
  }

  /** In a full three-item history, a command present at least twice wins the vote. */
  lemma TwoOfThreeWins(buf: seq<Cmd>, c: Cmd)
    requires |buf| == 3
    requires 2 <= Count(buf, c)
    ensures MostCommon(buf) == c
  {
    forall d | d != c
      ensures Count(buf, d) < Count(buf, c)
    {
      CountPair(buf, c, d);
    }
    StrictLeaderChosen(buf, c);
  }
}
