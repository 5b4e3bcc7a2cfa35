/** The membership diff of `updateMembership` in src/nerdgraph/teams.ts:
    starting from the GUIDs of the current members as the list of users to
    remove, each GUID a wanted email resolves to either takes its first copy
    off that list or, when it is not there, is queued for adding. */
module Membership {

  datatype MembershipResult = MembershipResult(usersAdded: seq<string>, usersRemoved: seq<string>)

  /** `s.indexOf(x)`: the first position of `x`, or -1. */
  function IndexOf(s: seq<string>, x: string): (r: int)
    ensures -1 <= r < |s|
    ensures r == -1 <==> x !in s
    ensures r >= 0 ==> s[r] == x && x !in s[..r]
  {
    if s == [] then -1
    else if s[0] == x then 0
    else
      var k := IndexOf(s[1..], x);
      if k == -1 then -1
      else
        assert s[..k + 1] == [s[0]] + s[1..][..k];
        k + 1
  }

  /** `s.splice(i, 1)`: `s` without its element at `i`. */
  function Splice(s: seq<string>, i: nat): (r: seq<string>)
    requires i < |s|
    ensures multiset(r) == multiset(s) - multiset{s[i]}
    ensures |r| == |s| - 1
  {
    assert s == s[..i] + [s[i]] + s[i + 1..];
    s[..i] + s[i + 1..]
  }

  /** One resolved GUID: queued for adding unless it is on the list of
      members to remove, from which its first copy is then taken off. */
  function DiffStep(d: MembershipResult, guid: string): MembershipResult
  {
    var index := IndexOf(d.usersRemoved, guid);
    if index == -1 then MembershipResult(d.usersAdded + [guid], d.usersRemoved)
    else MembershipResult(d.usersAdded, Splice(d.usersRemoved, index))
  }

  /** The diff `updateMembership` computes from the current members' GUIDs
      and the GUIDs the wanted emails resolve to, in order. */
  function Diff(current: seq<string>, resolved: seq<string>): MembershipResult
    decreases |resolved|
  {
    if resolved == [] then MembershipResult([], current)
    else DiffStep(Diff(current, resolved[..|resolved| - 1]), resolved[|resolved| - 1])
  }

  /** One step keeps the accounts: the GUID plus what stays to be removed
      and what was added before is what is added now plus what was to be
      removed before. */
  lemma DiffStepAccounts(d: MembershipResult, guid: string)
    ensures var d' := DiffStep(d, guid);
      && multiset(d'.usersRemoved) <= multiset(d.usersRemoved)
      && multiset{guid} + multiset(d'.usersRemoved) + multiset(d.usersAdded)
         == multiset(d'.usersAdded) + multiset(d.usersRemoved)
  {
    var index := IndexOf(d.usersRemoved, guid);
    if index != -1 {
      assert guid in multiset(d.usersRemoved);
    }
  }

  /** Every resolved GUID is either added or takes one copy of itself off
      the current members: the current members are those removed plus those
      kept, and the resolved ones are those added plus those kept. */
  lemma {:induction false} DiffAccounts(current: seq<string>, resolved: seq<string>)
    ensures var d := Diff(current, resolved);
      && multiset(d.usersRemoved) <= multiset(current)
      && multiset(resolved) + multiset(d.usersRemoved) == multiset(d.usersAdded) + multiset(current)
    decreases |resolved|
  {
    if resolved != [] {
      var prefix := resolved[..|resolved| - 1];
      var g := resolved[|resolved| - 1];
      assert resolved == prefix + [g];
      assert multiset(resolved) == multiset(prefix) + multiset{g};
      DiffAccounts(current, prefix);
      var d := Diff(current, prefix);
      var d' := DiffStep(d, g);
      DiffStepAccounts(d, g);
      forall x
        ensures (multiset(resolved) + multiset(d'.usersRemoved))[x] == (multiset(d'.usersAdded) + multiset(current))[x]
      {
        assert (multiset{g} + multiset(d'.usersRemoved) + multiset(d.usersAdded))[x]
            == (multiset(d'.usersAdded) + multiset(d.usersRemoved))[x];
        assert (multiset(prefix) + multiset(d.usersRemoved))[x] == (multiset(d.usersAdded) + multiset(current))[x];
      }
      assert multiset(resolved) + multiset(d'.usersRemoved) == multiset(d'.usersAdded) + multiset(current);
    }
  }

  /** Nobody is both added and to be removed. */
  predicate Apart(d: MembershipResult)
  {
    forall g :: g in d.usersAdded ==> g !in d.usersRemoved
  }

  /** One step keeps added and removed apart. */
  lemma DiffStepApart(d: MembershipResult, guid: string)
    requires Apart(d)
    ensures Apart(DiffStep(d, guid))
  {
    var index := IndexOf(d.usersRemoved, guid);
    if index != -1 {
      var r := Splice(d.usersRemoved, index);
      forall x | x in d.usersAdded
        ensures x !in r
      {
        assert multiset(d.usersRemoved)[x] == 0;
      }
    }
  }

  /** No user is both added and removed: a GUID is added only when it is
      not on the list of members to remove, which never grows. */
  lemma {:induction false} DiffApart(current: seq<string>, resolved: seq<string>)
    ensures Apart(Diff(current, resolved))
    decreases |resolved|
  {
    if resolved != [] {
      var prefix := resolved[..|resolved| - 1];
      DiffApart(current, prefix);
      DiffStepApart(Diff(current, prefix), resolved[|resolved| - 1]);
    }
  }

  /** When the wanted members resolve to exactly the current members (as a
      multiset), nobody is added and nobody is removed. */
  lemma NoChangeNoDiff(current: seq<string>, resolved: seq<string>)
    requires multiset(resolved) == multiset(current)
    ensures Diff(current, resolved) == MembershipResult([], [])
  {
    var d := Diff(current, resolved);
    DiffAccounts(current, resolved);
    DiffApart(current, resolved);
    forall g
      ensures multiset(d.usersAdded)[g] == 0 && multiset(d.usersRemoved)[g] == 0
    {
      assert (multiset(resolved) + multiset(d.usersRemoved))[g] == (multiset(d.usersAdded) + multiset(current))[g];
      assert g in d.usersAdded ==> g !in d.usersRemoved;
      assert multiset(d.usersAdded)[g] == multiset(d.usersRemoved)[g];
    }
    assert multiset(d.usersAdded) == multiset{} && multiset(d.usersRemoved) == multiset{};
    assert |d.usersAdded| == |multiset(d.usersAdded)|;
    assert |d.usersRemoved| == |multiset(d.usersRemoved)|;
  }
}
