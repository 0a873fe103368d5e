/**
 * The six-character identifiers every script draws at random (activation
 * tokens, order ids, transaction ids, transfer ids). The random choices are a
 * parameter: one index into the alphabet per character.
 */
module Tokens {

  /** `string.ascii_uppercase + string.digits` has 36 characters. */
  const AlphabetSize: nat := 36

  /** The i-th character of `string.ascii_uppercase + string.digits`. */
  function AlphabetChar(i: nat): (c: char)
    requires i < AlphabetSize
    ensures IsAlnum(c)
  {
    if i < 26 then ('A' as int + i) as char else ('0' as int + (i - 26)) as char
  }

  predicate IsAlnum(c: char)
  {
    'A' <= c <= 'Z' || '0' <= c <= '9'
  }

  predicate IsToken(t: string)
  {
    |t| == 6 && forall i :: 0 <= i < |t| ==> IsAlnum(t[i])
  }

  /** Six random draws, one index into the alphabet each. */
  predicate Choices(choices: seq<nat>)
  {
    |choices| == 6 && forall i :: 0 <= i < |choices| ==> choices[i] < AlphabetSize
  }

  /** `''.join(random.choice(alphabet) for _ in range(6))` */
  method GenerateToken(choices: seq<nat>) returns (t: string)
    requires Choices(choices)
    ensures IsToken(t)
    ensures forall i :: 0 <= i < 6 ==> t[i] == AlphabetChar(choices[i])
  {
    t := "";
    var n := 0;
    while n < 6
      invariant 0 <= n <= 6 && |t| == n
      invariant forall i :: 0 <= i < n ==> t[i] == AlphabetChar(choices[i])
    {
      t := t + [AlphabetChar(choices[n])];
      n := n + 1;
    }
  }

  /** The token a given set of draws yields. */
  function TokenOf(choices: seq<nat>): (t: string)
    requires Choices(choices)
    ensures IsToken(t)
  {
    seq(6, i requires 0 <= i < 6 => AlphabetChar(choices[i]))
  }

  /** The draws determine the token: any six characters read off them are `TokenOf`. */
  lemma TokenDetermined(choices: seq<nat>, t: string)
    requires Choices(choices) && |t| == 6
    requires forall i :: 0 <= i < 6 ==> t[i] == AlphabetChar(choices[i])
    ensures t == TokenOf(choices)
  {
  }

  /** Different draws give different tokens: the alphabet repeats no character. */
  lemma ChoicesDistinct(c1: seq<nat>, c2: seq<nat>, t1: string, t2: string)
    requires Choices(c1) && Choices(c2) && c1 != c2
    requires |t1| == |t2| == 6
    requires forall i :: 0 <= i < 6 ==> t1[i] == AlphabetChar(c1[i]) && t2[i] == AlphabetChar(c2[i])
    ensures t1 != t2
  {
    var i :| 0 <= i < 6 && c1[i] != c2[i];
    assert t1[i] != t2[i];
  }
}
