/** Who may use the pages (Web/Utils/Entitlement.go), and what a deletion does. */
module Entitlement {
  /** strings.ToLower, one character at a time, for a given case mapping. */
  function ToLower(lower: char -> char, name: string): string {
    seq(|name|, i requires 0 <= i < |name| => lower(name[i]))
  }

  /** The same name but for the case of its letters. */
  predicate SpelledAlike(lower: char -> char, a: string, b: string) {
    |a| == |b| && forall i :: 0 <= i < |a| ==> lower(a[i]) == lower(b[i])
  }

  lemma AlikeIffSameLower(lower: char -> char, a: string, b: string)
    ensures SpelledAlike(lower, a, b) <==> ToLower(lower, a) == ToLower(lower, b)
  {
    if ToLower(lower, a) == ToLower(lower, b) {
      forall i | 0 <= i < |a|
        ensures lower(a[i]) == lower(b[i])
      {
        assert ToLower(lower, a)[i] == ToLower(lower, b)[i];
      }
    }
  }

  ghost predicate Idempotent(lower: char -> char) {
    forall c: char :: lower(lower(c)) == lower(c)
  }

  lemma LowerIsLower(lower: char -> char, name: string)
    requires Idempotent(lower)
    ensures ToLower(lower, ToLower(lower, name)) == ToLower(lower, name)
  {}

  // ---------- Runs ----------

  datatype Op =
    | AddUser(user: string, allowed: bool)
    | DelUser(user: string)

  predicate Entitled(lower: char -> char, users: map<string, bool>, user: string) {
    var key := ToLower(lower, user);
    key in users && users[key]
  }

  /** AddUser writes the lowercase key; DelUser looks the lowercase key up but writes the name
      as it was spelled. */
  function Apply(lower: char -> char, users: map<string, bool>, op: Op): map<string, bool> {
    match op
    case AddUser(user, allowed) => users[ToLower(lower, user) := allowed]
    case DelUser(user) => if Entitled(lower, users, user) then users[user := false] else users
  }

  /** In every map a name is answered for in all its spellings alike. */
  lemma SpellingDoesNotMatter(lower: char -> char, users: map<string, bool>, a: string, b: string)
    requires |a| == |b| && forall i :: 0 <= i < |a| ==> lower(a[i]) == lower(b[i])
    ensures Entitled(lower, users, a) == Entitled(lower, users, b)
  {
    AlikeIffSameLower(lower, a, b);
  }

  /** Adding a user changes the answer for the spellings of the name, and for no other name. */
  lemma AddsSpellings(lower: char -> char, users: map<string, bool>, a: string, allowed: bool, b: string)
    ensures Entitled(lower, Apply(lower, users, AddUser(a, allowed)), b) ==
            if |a| == |b| && forall i :: 0 <= i < |a| ==> lower(a[i]) == lower(b[i]) then allowed
            else Entitled(lower, users, b)
  {
    AlikeIffSameLower(lower, a, b);
  }

  function Run(lower: char -> char, users: map<string, bool>, ops: seq<Op>): map<string, bool>
    decreases |ops|
  {
    if ops == [] then users
    else Apply(lower, Run(lower, users, ops[..|ops| - 1]), ops[|ops| - 1])
  }

  /** The intended meaning: a set of lowercase names. `effective` says which deletions count. */
  function Names(lower: char -> char, ops: seq<Op>, effective: string -> bool): (names: set<string>)
    decreases |ops|
  {
    if ops == [] then {}
    else
      var before := Names(lower, ops[..|ops| - 1], effective);
      match ops[|ops| - 1]
      case AddUser(user, true) => before + {ToLower(lower, user)}
      case AddUser(user, false) => before - {ToLower(lower, user)}
      case DelUser(user) => if effective(user) then before - {ToLower(lower, user)} else before
  }

  function IsLower(lower: char -> char): string -> bool {
    (name: string) => ToLower(lower, name) == name
  }

  /** From an empty map, over any operations: every key mapped to true is lowercase, and what
      IsEntitled answers, for all spellings, is membership in the set of names where a deletion
      counts when the name given is already lowercase. */
  lemma {:induction false} EntitledIsMembership(lower: char -> char, ops: seq<Op>)
    requires Idempotent(lower)
    ensures forall key :: key in Run(lower, map[], ops) && Run(lower, map[], ops)[key] ==> ToLower(lower, key) == key
    ensures forall user :: Entitled(lower, Run(lower, map[], ops), user) <==>
                           ToLower(lower, user) in Names(lower, ops, IsLower(lower))
  {
    if ops != [] {
      EntitledIsMembership(lower, ops[..|ops| - 1]);
      forall name: string ensures ToLower(lower, ToLower(lower, name)) == ToLower(lower, name) {
        LowerIsLower(lower, name);
      }
    }
  }

  /** Deleting removes the user exactly if there was nothing to remove or the name was given in
      lowercase; whatever the case mapping and whatever the map. */
  lemma DeletionWorksIff(lower: char -> char, users: map<string, bool>, user: string)
    requires Idempotent(lower)
    ensures !Entitled(lower, Apply(lower, users, DelUser(user)), user) <==>
            !Entitled(lower, users, user) || ToLower(lower, user) == user
  {
    LowerIsLower(lower, user);
  }

  /** After every operation of the run the map answers, for all spellings, as the set in which
      every deletion counts. */
  ghost predicate AgreesThroughout(lower: char -> char, ops: seq<Op>)
    decreases |ops|
  {
    && (ops != [] ==> AgreesThroughout(lower, ops[..|ops| - 1]))
    && forall user :: Entitled(lower, Run(lower, map[], ops), user) <==>
                      ToLower(lower, user) in Names(lower, ops, (name: string) => true)
  }

  /** Every deletion that finds its user spells the name in lowercase. */
  predicate DeletesInLowercase(lower: char -> char, ops: seq<Op>)
    decreases |ops|
  {
    ops != [] ==>
      var before, op := ops[..|ops| - 1], ops[|ops| - 1];
      && DeletesInLowercase(lower, before)
      && (op.DelUser? && Entitled(lower, Run(lower, map[], before), op.user) ==> ToLower(lower, op.user) == op.user)
  }

  /** Exactly when deletions do what they are for over a whole run. */
  lemma {:induction false} AgreesIffLowercase(lower: char -> char, ops: seq<Op>)
    requires Idempotent(lower)
    ensures AgreesThroughout(lower, ops) <==> DeletesInLowercase(lower, ops)
  {
    if ops != [] {
      AgreesIffLowercase(lower, ops[..|ops| - 1]);
      var op := ops[|ops| - 1];
      LowerIsLower(lower, op.user);
    }
  }

  /** ASCII lowercasing, for the example. */
  function AsciiLower(c: char): char {
    if 'A' <= c <= 'Z' then c - 'A' + 'a' else c
  }

  /** An administrator adds "A" and then disables "A", who is still entitled. */
  lemma DeletionCanFail()
    ensures Idempotent(AsciiLower)
    ensures Entitled(AsciiLower, Run(AsciiLower, map[], [AddUser("A", true), DelUser("A")]), "A")
  {
    var added := [AddUser("A", true)];
    assert [AddUser("A", true), DelUser("A")][..1] == added && added[..0] == [];
    assert ToLower(AsciiLower, "A") == "a";
    assert Run(AsciiLower, map[], added) == map["a" := true];
    assert Run(AsciiLower, map[], [AddUser("A", true), DelUser("A")]) == map["a" := true, "A" := false];
  }

  // ---------- The code ----------

  class Entitlement {
    const lower: char -> char
    var userMap: map<string, bool>

    constructor (lower: char -> char)
      ensures this.lower == lower && userMap == map[]
    {
      this.lower := lower;
      userMap := map[];
    }

    /** The first result of Go's two-value lookup is the value, false for a missing key; here as
        there it is what gates the answer. */
    function IsEntitled(user: string): bool
      reads this
    {
      Entitled(lower, userMap, user)
    }

    method AddUser(user: string, allowed: bool)
      modifies this
      ensures userMap == Apply(lower, old(userMap), Op.AddUser(user, allowed))
      ensures forall u :: IsEntitled(u) == if SpelledAlike(lower, user, u) then allowed else old(IsEntitled(u))
    {
      forall u
        ensures SpelledAlike(lower, user, u) <==> ToLower(lower, user) == ToLower(lower, u)
      {
        AlikeIffSameLower(lower, user, u);
      }
      userMap := userMap[ToLower(lower, user) := allowed];
    }

    method DelUser(user: string)
      modifies this
      ensures userMap == Apply(lower, old(userMap), Op.DelUser(user))
      ensures forall u :: IsEntitled(u) == (old(IsEntitled(u)) && !(old(IsEntitled(user)) && ToLower(lower, u) == user))
    {
      if IsEntitled(user) {
        userMap := userMap[user := false];
      }
    }
  }
}
