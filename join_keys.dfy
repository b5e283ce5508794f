/** Join keys: the short random codes a private room is entered with.
    The server draws each character of a key uniformly from a fixed 64-character
    alphabet (app/src/index.ts:17, 531-539). The random draws themselves are an
    input here: each draw is the index `floor(random() * 64)` it produces. */
module JoinKeys {

  /** The alphabet join keys are drawn from. */
  const Charset: string := "abcdefghijklmnopqrstuvwxyzABCDEFGHIJKLMNOPQRSTUVWXYZ0123456789-_"

  /** Every join key the server generates has this many characters. */
  const JoinKeyLength: nat := 10

  /** One random draw: an index into Charset. */
  type CharIndex = i: nat | i < 64

  /** A well-formed join key: JoinKeyLength characters, all from Charset. */
  ghost predicate IsJoinKey(s: string) {
    |s| == JoinKeyLength && forall i | 0 <= i < |s| :: s[i] in Charset
  }

  /** The key spelled by a sequence of draws, one character per draw. */
  function KeyFromPicks(picks: seq<CharIndex>): (s: string)
    ensures |s| == |picks|
    ensures forall i | 0 <= i < |picks| :: s[i] == Charset[picks[i]]
  {
    if picks == [] then []
    else KeyFromPicks(picks[..|picks| - 1]) + [Charset[picks[|picks| - 1]]]
  }

  /** The position of the first occurrence of `c` in `s`. */
  function FirstIndex(s: string, c: char): (i: nat)
    requires c in s
    ensures i < |s| && s[i] == c
    ensures forall j | 0 <= j < i :: s[j] != c
  {
    if s[0] == c then 0 else 1 + FirstIndex(s[1..], c)
  }

  /** The draws that spell `s`: the inverse of KeyFromPicks on strings over Charset. */
  function PicksOf(s: string): (picks: seq<CharIndex>)
    requires forall i | 0 <= i < |s| :: s[i] in Charset
    ensures |picks| == |s|
  {
    seq(|s|, i requires 0 <= i < |s| => FirstIndex(Charset, s[i]) as CharIndex)
  }

  /** randomStringCreator: appends one Charset character per draw. */
  method RandomStringCreator(length: nat, picks: seq<CharIndex>) returns (s: string)
    requires |picks| == length
    ensures s == KeyFromPicks(picks)
    ensures |s| == length && forall i | 0 <= i < |s| :: s[i] in Charset
  {
    s := "";
    for i := 0 to length
      invariant s == KeyFromPicks(picks[..i])
    {
      assert picks[..i + 1][..i] == picks[..i];
      s := s + [Charset[picks[i]]];
    }
    assert picks[..length] == picks;
  }

  /** Every string over Charset is spelled by some draws, so every well-formed
      key can come out of the generator. */
  lemma EveryCharsetStringIsGenerated(s: string)
    requires forall i | 0 <= i < |s| :: s[i] in Charset
    ensures KeyFromPicks(PicksOf(s)) == s
  {
  }

  /** A key generated from JoinKeyLength draws is well formed. */
  lemma GeneratedKeyIsJoinKey(picks: seq<CharIndex>)
    requires |picks| == JoinKeyLength
    ensures IsJoinKey(KeyFromPicks(picks))
  {
  }
}
