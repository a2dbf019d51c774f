/** Types and small helpers the other modules share. */
module Basics {

  datatype Option<+T> = None | Some(value: T)

  predicate HasPrefix(s: string, prefix: string) {
    prefix <= s
  }

  predicate HasSuffix(s: string, suffix: string) {
    |suffix| <= |s| && s[|s| - |suffix|..] == suffix
  }

  predicate Blank(c: char) {
    c == ' ' || 9 <= c as int <= 13
  }

  function TrimLeft(s: string): string {
    if s != "" && Blank(s[0]) then TrimLeft(s[1..]) else s
  }

  function TrimRight(s: string): string {
    if s != "" && Blank(s[|s| - 1]) then TrimRight(s[..|s| - 1]) else s
  }

  function TrimSpace(s: string): string {
    TrimRight(TrimLeft(s))
  }

  function UpperChar(c: char): char {
    if 'a' <= c <= 'z' then (c as int - 32) as char else c
  }

  function Upper(s: string): string {
    seq(|s|, i requires 0 <= i < |s| => UpperChar(s[i]))
  }

  function LowerChar(c: char): char {
    if 'A' <= c <= 'Z' then (c as int + 32) as char else c
  }

  function Lower(s: string): string {
    seq(|s|, i requires 0 <= i < |s| => LowerChar(s[i]))
  }

  /** A set that is not empty has an element to pick. */
  lemma SomeId(ids: set<int>)
    ensures ids != {} ==> exists i :: i in ids
  {
    assert (forall i :: i !in ids) ==> ids == {};
  }

  /** Trimming takes blanks off both ends and nothing else. */
  lemma TrimmedText(s: string) returns (front: string, back: string)
    ensures s == front + TrimSpace(s) + back
    ensures (forall c :: c in front ==> Blank(c)) && (forall c :: c in back ==> Blank(c))
    ensures var t := TrimSpace(s); t != "" ==> !Blank(t[0]) && !Blank(t[|t| - 1])
  {
    front := TrimmedLeft(s);
    var rest := TrimLeft(s);
    back := TrimmedRight(rest);
    assert s == front + (TrimSpace(s) + back);
  }

  lemma {:induction false} TrimmedLeft(s: string) returns (front: string)
    ensures s == front + TrimLeft(s) && forall c :: c in front ==> Blank(c)
    ensures TrimLeft(s) != "" ==> !Blank(TrimLeft(s)[0])
  {
    front := "";
    if s != "" && Blank(s[0]) {
      var f := TrimmedLeft(s[1..]);
      front := [s[0]] + f;
      assert s == [s[0]] + s[1..];
    }
  }

  lemma {:induction false} TrimmedRight(s: string) returns (back: string)
    ensures s == TrimRight(s) + back && forall c :: c in back ==> Blank(c)
    ensures var t := TrimRight(s); t <= s && (t != "" ==> !Blank(t[|t| - 1]))
  {
    back := "";
    if s != "" && Blank(s[|s| - 1]) {
      var b := TrimmedRight(s[..|s| - 1]);
      back := b + [s[|s| - 1]];
      assert s == s[..|s| - 1] + [s[|s| - 1]];
    }
  }

  const SMALL := "abcdefghijklmnopqrstuvwxyz"
  const LARGE := "ABCDEFGHIJKLMNOPQRSTUVWXYZ"

  lemma Letters(i: nat)
    requires i < 26
    ensures SMALL[i] as int == 97 + i && LARGE[i] as int == 65 + i
  {
  }

  /** The letters of either case stand for each other. */
  lemma CasesMatch(i: nat)
    requires i < 26
    ensures UpperChar(SMALL[i]) == LARGE[i] && LowerChar(LARGE[i]) == SMALL[i]
  {
    Letters(i);
  }

  /** Everything but a letter of the other case stays as it is. */
  lemma OthersStay(c: char)
    ensures c !in SMALL ==> UpperChar(c) == c
    ensures c !in LARGE ==> LowerChar(c) == c
  {
    if 'a' <= c <= 'z' {
      Letters(c as int - 97);
      assert SMALL[c as int - 97] == c;
    } else if 'A' <= c <= 'Z' {
      Letters(c as int - 65);
      assert LARGE[c as int - 65] == c;
    }
  }

  /** Blanks around a text that has none at its ends are what trimming takes off. */
  lemma {:induction false} TrimmedMiddle(front: string, mid: string, back: string)
    requires (forall i :: 0 <= i < |front| ==> Blank(front[i])) && (forall i :: 0 <= i < |back| ==> Blank(back[i]))
    requires mid != "" && !Blank(mid[0]) && !Blank(mid[|mid| - 1])
    ensures TrimSpace(front + mid + back) == mid
  {
    TrimFront(front, mid + back);
    assert front + (mid + back) == front + mid + back;
    TrimBack(mid, back);
  }

  lemma {:induction false} TrimFront(front: string, rest: string)
    requires (forall i :: 0 <= i < |front| ==> Blank(front[i])) && rest != "" && !Blank(rest[0])
    ensures TrimLeft(front + rest) == rest
  {
    if front == "" {
      assert front + rest == rest;
    } else {
      assert (front + rest)[1..] == front[1..] + rest && (front + rest)[0] == front[0];
      TrimFront(front[1..], rest);
    }
  }

  lemma {:induction false} TrimBack(mid: string, back: string)
    requires (forall i :: 0 <= i < |back| ==> Blank(back[i])) && mid != "" && !Blank(mid[|mid| - 1])
    ensures TrimRight(mid + back) == mid
  {
    var all := mid + back;
    if back == "" {
      assert all == mid;
    } else {
      assert all[..|all| - 1] == mid + back[..|back| - 1] && all[|all| - 1] == back[|back| - 1];
      TrimBack(mid, back[..|back| - 1]);
    }
  }
}
