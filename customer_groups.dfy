/** The data patch that creates the default B2B customer groups
    (Setup/Patch/Data/CreateDefaultB2BCustomerGroups.php). */
module DefaultCustomerGroups {
  import opened Php

  /** One group the patch wants: its raw code and the name of its tax class. */
  datatype GroupSpec = GroupSpec(code: string, taxClassName: string)

  const DefaultGroups := [
    GroupSpec("b2b_wholesale_bronze", "Retail Customer"),
    GroupSpec("b2b_wholesale_silver", "Retail Customer"),
    GroupSpec("b2b_wholesale_gold", "Retail Customer")
  ]

  /** The tax class id used when the lookup finds none. */
  const FallbackTaxClassId := 3

  datatype CustomerGroup = CustomerGroup(code: string, taxClassId: nat)

  // ---- The group code transformation.

  /** `str_replace('_', ' ', $s)`. */
  function UnderscoresToSpaces(s: string): (r: string)
    ensures |r| == |s|
  {
    if s == [] then [] else [if s[0] == '_' then ' ' else s[0]] + UnderscoresToSpaces(s[1..])
  }

  /** Each underscore becomes a space and every other character stays. */
  lemma {:induction false} UnderscoresReplaced(s: string)
    ensures forall i :: 0 <= i < |s| ==> UnderscoresToSpaces(s)[i] == (if s[i] == '_' then ' ' else s[i])
  {
    if s != [] {
      UnderscoresReplaced(s[1..]);
    }
  }

  /** `ucwords`'s default word delimiters. */
  predicate IsDelimiter(c: char)
  {
    c == ' ' || c == '\t' || c == '\r' || c == '\n' || c == '\U{0C}' || c == '\U{0B}'
  }

  function ToUpper(c: char): char
  {
    if 'a' <= c <= 'z' then (c as int - 'a' as int + 'A' as int) as char else c
  }

  /** Whether position i of s starts a word: the first position, or one after a delimiter. */
  predicate StartsWord(s: string, i: nat)
    requires i < |s|
  {
    i == 0 || IsDelimiter(s[i - 1])
  }

  /** `ucwords($s)`, scanning left to right with whether the previous character
      ended a word. */
  function UcWordsFrom(s: string, atStart: bool): (r: string)
    ensures |r| == |s|
  {
    if s == [] then []
    else [if atStart then ToUpper(s[0]) else s[0]] + UcWordsFrom(s[1..], IsDelimiter(s[0]))
  }

  lemma {:induction false} UcWordsFromPointwise(s: string, atStart: bool)
    ensures |s| > 0 ==> UcWordsFrom(s, atStart)[0] == (if atStart then ToUpper(s[0]) else s[0])
    ensures forall i :: 0 < i < |s| ==>
              UcWordsFrom(s, atStart)[i] == (if IsDelimiter(s[i - 1]) then ToUpper(s[i]) else s[i])
  {
    if s != [] {
      UcWordsFromPointwise(s[1..], IsDelimiter(s[0]));
    }
  }

  function UcWords(s: string): (r: string)
    ensures |r| == |s|
  {
    UcWordsFrom(s, true)
  }

  /** Every word's first character is upper-cased, nothing else changes. */
  lemma UcWordsPointwise(s: string)
    ensures forall i :: 0 <= i < |s| ==> UcWords(s)[i] == (if StartsWord(s, i) then ToUpper(s[i]) else s[i])
  {
    UcWordsFromPointwise(s, true);
  }

  /** The code a created group is saved under. */
  function GroupCode(code: string): string
  {
    UcWords(UnderscoresToSpaces(code))
  }

  /** A saved code holds no underscore, so it never equals a raw code that has one. */
  lemma SavedCodeHasNoUnderscore(code: string)
    ensures '_' !in GroupCode(code)
    ensures '_' in code ==> GroupCode(code) != code
  {
    var spaced := UnderscoresToSpaces(code);
    var r := GroupCode(code);
    UnderscoresReplaced(code);
    UcWordsPointwise(spaced);
    forall i | 0 <= i < |r|
      ensures r[i] != '_'
    {
      assert spaced[i] != '_';
    }
  }

  lemma {:induction false} UnderscoresToSpacesAppend(a: string, b: string)
    ensures UnderscoresToSpaces(a + b) == UnderscoresToSpaces(a) + UnderscoresToSpaces(b)
  {
    if a == [] {
      assert a + b == b;
    } else {
      assert (a + b)[1..] == a[1..] + b;
      UnderscoresToSpacesAppend(a[1..], b);
    }
  }

  /** Upper-casing words splits at any point, the second part starting a word
      when the first ends with a delimiter. */
  lemma {:induction false} UcWordsFromAppend(a: string, b: string, atStart: bool)
    requires a != []
    ensures UcWordsFrom(a + b, atStart) == UcWordsFrom(a, atStart) + UcWordsFrom(b, IsDelimiter(a[|a| - 1]))
  {
    assert (a + b)[1..] == a[1..] + b;
    if |a| > 1 {
      UcWordsFromAppend(a[1..], b, IsDelimiter(a[0]));
    }
  }

  /** A word of a group code: no underscore and no word delimiter in it. */
  predicate PlainWord(w: string)
  {
    w != [] && forall c :: c in w ==> c != '_' && !IsDelimiter(c)
  }

  /** A word's first letter upper-cased. */
  function Capitalized(w: string): string
  {
    if w == [] then [] else [ToUpper(w[0])] + w[1..]
  }

  lemma {:induction false} PlainWordUnchanged(w: string)
    requires forall c :: c in w ==> c != '_'
    ensures UnderscoresToSpaces(w) == w
  {
    if w != [] {
      assert forall c :: c in w[1..] ==> c in w;
      assert w[0] in w;
      PlainWordUnchanged(w[1..]);
      assert w == [w[0]] + w[1..];
    }
  }

  /** Inside a word without delimiters, only the first character can change. */
  lemma {:induction false} WordCapitalized(w: string, atStart: bool)
    requires forall c :: c in w ==> !IsDelimiter(c)
    ensures UcWordsFrom(w, atStart) == if atStart then Capitalized(w) else w
  {
    if w != [] {
      assert forall c :: c in w[1..] ==> c in w;
      assert !IsDelimiter(w[0]);
      WordCapitalized(w[1..], false);
      assert w == [w[0]] + w[1..];
    }
  }

  /** A code of three underscore-separated words: the underscores become spaces. */
  lemma SpacedThreeWords(w1: string, w2: string, w3: string)
    requires PlainWord(w1) && PlainWord(w2) && PlainWord(w3)
    ensures UnderscoresToSpaces(w1 + "_" + w2 + "_" + w3) == w1 + " " + w2 + " " + w3
  {
    assert UnderscoresToSpaces("_") == " ";
    PlainWordUnchanged(w1);
    PlainWordUnchanged(w2);
    PlainWordUnchanged(w3);
    var p1 := w1 + "_";
    UnderscoresToSpacesAppend(w1, "_");
    assert UnderscoresToSpaces(p1) == w1 + " ";
    var p2 := p1 + w2;
    UnderscoresToSpacesAppend(p1, w2);
    assert UnderscoresToSpaces(p2) == w1 + " " + w2;
    var p3 := p2 + "_";
    UnderscoresToSpacesAppend(p2, "_");
    assert UnderscoresToSpaces(p3) == w1 + " " + w2 + " ";
    UnderscoresToSpacesAppend(p3, w3);
  }

  /** Three words separated by spaces: each has its first letter upper-cased. */
  lemma UcThreeWords(w1: string, w2: string, w3: string)
    requires PlainWord(w1) && PlainWord(w2) && PlainWord(w3)
    ensures UcWords(w1 + " " + w2 + " " + w3) == Capitalized(w1) + " " + Capitalized(w2) + " " + Capitalized(w3)
  {
    assert UcWordsFrom(" ", false) == " ";
    WordCapitalized(w1, true);
    WordCapitalized(w2, true);
    WordCapitalized(w3, true);
    var p1 := w1 + " ";
    UcWordsFromAppend(w1, " ", true);
    assert UcWordsFrom(p1, true) == Capitalized(w1) + " ";
    var p2 := p1 + w2;
    UcWordsFromAppend(p1, w2, true);
    assert UcWordsFrom(p2, true) == Capitalized(w1) + " " + Capitalized(w2);
    var p3 := p2 + " ";
    UcWordsFromAppend(p2, " ", true);
    assert UcWordsFrom(p3, true) == Capitalized(w1) + " " + Capitalized(w2) + " ";
    UcWordsFromAppend(p3, w3, true);
  }

  /** A code of three underscore-separated words is saved as the three words,
      each with its first letter upper-cased, separated by spaces. */
  lemma ThreeWordCode(w1: string, w2: string, w3: string)
    requires PlainWord(w1) && PlainWord(w2) && PlainWord(w3)
    ensures GroupCode(w1 + "_" + w2 + "_" + w3) == Capitalized(w1) + " " + Capitalized(w2) + " " + Capitalized(w3)
  {
    SpacedThreeWords(w1, w2, w3);
    UcThreeWords(w1, w2, w3);
  }

  lemma PrefixWords()
    ensures PlainWord("b2b") && PlainWord("wholesale")
    ensures Capitalized("b2b") == "B2b" && Capitalized("wholesale") == "Wholesale"
  {
  }

  lemma BronzeParts()
    ensures PlainWord("bronze") && Capitalized("bronze") == "Bronze"
    ensures "b2b" + "_" + "wholesale" + "_" + "bronze" == "b2b_wholesale_bronze"
    ensures "B2b" + " " + "Wholesale" + " " + "Bronze" == "B2b Wholesale Bronze"
  {
  }

  lemma BronzeCode()
    ensures GroupCode("b2b_wholesale_bronze") == "B2b Wholesale Bronze"
  {
    PrefixWords();
    BronzeParts();
    ThreeWordCode("b2b", "wholesale", "bronze");
  }

  lemma SilverParts()
    ensures PlainWord("silver") && Capitalized("silver") == "Silver"
    ensures "b2b" + "_" + "wholesale" + "_" + "silver" == "b2b_wholesale_silver"
    ensures "B2b" + " " + "Wholesale" + " " + "Silver" == "B2b Wholesale Silver"
  {
  }

  lemma SilverCode()
    ensures GroupCode("b2b_wholesale_silver") == "B2b Wholesale Silver"
  {
    PrefixWords();
    SilverParts();
    ThreeWordCode("b2b", "wholesale", "silver");
  }

  lemma GoldParts()
    ensures PlainWord("gold") && Capitalized("gold") == "Gold"
    ensures "b2b" + "_" + "wholesale" + "_" + "gold" == "b2b_wholesale_gold"
    ensures "B2b" + " " + "Wholesale" + " " + "Gold" == "B2b Wholesale Gold"
  {
  }

  lemma GoldCode()
    ensures GroupCode("b2b_wholesale_gold") == "B2b Wholesale Gold"
  {
    PrefixWords();
    GoldParts();
    ThreeWordCode("b2b", "wholesale", "gold");
  }

  /** `$taxClass->getId() ?: 3`: a missing or zero id falls back to 3, so the
      id stored is never falsy. */
  function TaxClassId(lookup: Option<nat>): (id: nat)
    ensures id > 0
    ensures lookup.Some? && lookup.value != 0 ==> id == lookup.value
    ensures !(lookup.Some? && lookup.value != 0) ==> id == FallbackTaxClassId
  {
    if lookup.Some? && lookup.value != 0 then lookup.value else FallbackTaxClassId
  }

  // ---- The repository and the patch.

  /** A search by `customer_group_code`: whether any group carries exactly this code. */
  predicate HasCode(groups: seq<CustomerGroup>, code: string)
  {
    exists g :: g in groups && g.code == code
  }

  class GroupRepository {
    var groups: seq<CustomerGroup>

    constructor (groups: seq<CustomerGroup>)
      ensures this.groups == groups
    {
      this.groups := groups;
    }

    method Save(g: CustomerGroup)
      modifies this
      ensures groups == old(groups) + [g]
    {
      groups := groups + [g];
    }
  }

  function NewGroup(spec: GroupSpec, taxClassOf: string -> Option<nat>): CustomerGroup
  {
    CustomerGroup(GroupCode(spec.code), TaxClassId(taxClassOf(spec.taxClassName)))
  }

  /** One iteration: an existing code, or an exception anywhere in it, leaves
      the groups alone; otherwise the new group is saved. */
  function Step(groups: seq<CustomerGroup>, spec: GroupSpec, taxClassOf: string -> Option<nat>,
                fails: string -> bool): seq<CustomerGroup>
  {
    if HasCode(groups, spec.code) || fails(spec.code) then groups else groups + [NewGroup(spec, taxClassOf)]
  }

  /** The iterations in order, each seeing what the earlier ones saved. */
  function Run(groups: seq<CustomerGroup>, specs: seq<GroupSpec>, taxClassOf: string -> Option<nat>,
               fails: string -> bool): seq<CustomerGroup>
    decreases |specs|
  {
    if specs == [] then groups else Run(Step(groups, specs[0], taxClassOf, fails), specs[1..], taxClassOf, fails)
  }

  /** `apply`: the three default groups are processed in order. */
  method Apply(repo: GroupRepository, taxClassOf: string -> Option<nat>, fails: string -> bool)
    modifies repo
    ensures repo.groups == Run(old(repo.groups), DefaultGroups, taxClassOf, fails)
  {
    ghost var start := repo.groups;
    for i := 0 to |DefaultGroups|
      invariant Run(start, DefaultGroups, taxClassOf, fails) == Run(repo.groups, DefaultGroups[i..], taxClassOf, fails)
    {
      var spec := DefaultGroups[i];
      assert DefaultGroups[i..][1..] == DefaultGroups[i + 1..];
      if HasCode(repo.groups, spec.code) || fails(spec.code) {
        continue;
      }
      var taxClassId := TaxClassId(taxClassOf(spec.taxClassName));
      var group := CustomerGroup(GroupCode(spec.code), taxClassId);
      repo.Save(group);
    }
  }

  /** The groups the patch creates, decided against the groups it started
      from: one per wanted code that neither exists nor fails, in order. */
  function Created(groups: seq<CustomerGroup>, specs: seq<GroupSpec>, taxClassOf: string -> Option<nat>,
                   fails: string -> bool): seq<CustomerGroup>
  {
    if specs == [] then []
    else
      (if HasCode(groups, specs[0].code) || fails(specs[0].code) then [] else [NewGroup(specs[0], taxClassOf)])
      + Created(groups, specs[1..], taxClassOf, fails)
  }

  /** No wanted raw code is the saved code of a wanted group. */
  predicate CodesDisjoint(specs: seq<GroupSpec>)
  {
    forall s, t :: s in specs && t in specs ==> GroupCode(t.code) != s.code
  }

  /** Since the saved codes never match a raw code searched for, a group saved
      early does not change the decision for a later one, and a failure on one
      group does not affect the others. */
  lemma {:induction false} RunAppendsCreated(groups: seq<CustomerGroup>, specs: seq<GroupSpec>,
                                              taxClassOf: string -> Option<nat>, fails: string -> bool)
    requires CodesDisjoint(specs)
    ensures Run(groups, specs, taxClassOf, fails) == groups + Created(groups, specs, taxClassOf, fails)
    decreases |specs|
  {
    if specs == [] {
      assert groups + [] == groups;
    } else {
      var next := Step(groups, specs[0], taxClassOf, fails);
      DisjointTail(specs);
      RunAppendsCreated(next, specs[1..], taxClassOf, fails);
      CreatedAfterStep(groups, specs, taxClassOf, fails);
    }
  }

  /** One iteration followed by the groups the rest create is the same as the
      groups all of them create from the start. */
  lemma CreatedAfterStep(groups: seq<CustomerGroup>, specs: seq<GroupSpec>,
                         taxClassOf: string -> Option<nat>, fails: string -> bool)
    requires specs != []
    requires forall x :: x in specs[1..] ==> GroupCode(specs[0].code) != x.code
    ensures var next := Step(groups, specs[0], taxClassOf, fails);
            next + Created(next, specs[1..], taxClassOf, fails) == groups + Created(groups, specs, taxClassOf, fails)
  {
    if HasCode(groups, specs[0].code) || fails(specs[0].code) {
      var tail := Created(groups, specs[1..], taxClassOf, fails);
      assert Step(groups, specs[0], taxClassOf, fails) == groups;
      assert Created(groups, specs, taxClassOf, fails) == [] + tail;
      assert [] + tail == tail;
    } else {
      CreatedAfterSave(groups, specs, taxClassOf, fails);
    }
  }

  lemma CreatedAfterSave(groups: seq<CustomerGroup>, specs: seq<GroupSpec>,
                         taxClassOf: string -> Option<nat>, fails: string -> bool)
    requires specs != [] && !HasCode(groups, specs[0].code) && !fails(specs[0].code)
    requires forall x :: x in specs[1..] ==> GroupCode(specs[0].code) != x.code
    ensures var ng := NewGroup(specs[0], taxClassOf);
            groups + [ng] + Created(groups + [ng], specs[1..], taxClassOf, fails)
              == groups + Created(groups, specs, taxClassOf, fails)
  {
    var ng := NewGroup(specs[0], taxClassOf);
    var tail := Created(groups, specs[1..], taxClassOf, fails);
    SameSearches(groups, ng, specs[1..], taxClassOf, fails);
    assert Created(groups, specs, taxClassOf, fails) == [ng] + tail;
    assert groups + [ng] + tail == groups + ([ng] + tail);
  }

  lemma DisjointTail(specs: seq<GroupSpec>)
    requires specs != [] && CodesDisjoint(specs)
    ensures CodesDisjoint(specs[1..])
    ensures forall x :: x in specs[1..] ==> GroupCode(specs[0].code) != x.code
  {
    assert specs[0] in specs;
    assert forall x :: x in specs[1..] ==> x in specs;
  }

  /** Adding a group whose code is no wanted raw code changes nothing the
      remaining iterations decide. */
  lemma {:induction false} SameSearches(groups: seq<CustomerGroup>, g: CustomerGroup, specs: seq<GroupSpec>,
                                         taxClassOf: string -> Option<nat>, fails: string -> bool)
    requires forall s :: s in specs ==> g.code != s.code
    ensures Created(groups + [g], specs, taxClassOf, fails) == Created(groups, specs, taxClassOf, fails)
  {
    if specs != [] {
      assert HasCode(groups + [g], specs[0].code) == HasCode(groups, specs[0].code) by {
        if HasCode(groups + [g], specs[0].code) {
          var h :| h in groups + [g] && h.code == specs[0].code;
          assert h in groups;
        }
      }
      assert forall x :: x in specs[1..] ==> x in specs;
      SameSearches(groups, g, specs[1..], taxClassOf, fails);
    }
  }

  lemma DefaultCodesDisjoint()
    ensures CodesDisjoint(DefaultGroups)
  {
    forall s, t | s in DefaultGroups && t in DefaultGroups
      ensures GroupCode(t.code) != s.code
    {
      assert '_' in s.code;
      SavedCodeHasNoUnderscore(t.code);
    }
  }

  /** The patch appends, in the order bronze, silver, gold, a group for each
      default code that did not exist and did not fail. */
  lemma ApplyAppendsInOrder(groups: seq<CustomerGroup>, taxClassOf: string -> Option<nat>, fails: string -> bool)
    ensures Run(groups, DefaultGroups, taxClassOf, fails) == groups + Created(groups, DefaultGroups, taxClassOf, fails)
  {
    DefaultCodesDisjoint();
    RunAppendsCreated(groups, DefaultGroups, taxClassOf, fails);
  }

  /** Every group the patch creates is the new group of one of the wanted codes. */
  lemma {:induction false} CreatedFromSpecs(groups: seq<CustomerGroup>, specs: seq<GroupSpec>,
                                             taxClassOf: string -> Option<nat>, fails: string -> bool)
    ensures forall g :: g in Created(groups, specs, taxClassOf, fails) ==>
              exists t :: t in specs && g == NewGroup(t, taxClassOf)
  {
    if specs != [] {
      CreatedFromSpecs(groups, specs[1..], taxClassOf, fails);
      assert forall x :: x in specs[1..] ==> x in specs;
    }
  }

  /** When no wanted code exists yet and none fails, every one is created. */
  lemma {:induction false} CreatedAll(groups: seq<CustomerGroup>, specs: seq<GroupSpec>,
                                       taxClassOf: string -> Option<nat>, fails: string -> bool)
    requires forall s :: s in specs ==> !HasCode(groups, s.code) && !fails(s.code)
    ensures |Created(groups, specs, taxClassOf, fails)| == |specs|
  {
    if specs != [] {
      assert specs[0] in specs;
      assert forall x :: x in specs[1..] ==> x in specs;
      CreatedAll(groups, specs[1..], taxClassOf, fails);
    }
  }

  /** Appending groups that carry none of the wanted codes leaves every search
      for a wanted code as it was. */
  lemma SearchesUnaffected(groups: seq<CustomerGroup>, added: seq<CustomerGroup>, specs: seq<GroupSpec>)
    requires forall s, g :: s in specs && g in added ==> g.code != s.code
    ensures forall s :: s in specs ==> HasCode(groups + added, s.code) == HasCode(groups, s.code)
  {
    forall s | s in specs
      ensures HasCode(groups + added, s.code) == HasCode(groups, s.code)
    {
      if HasCode(groups + added, s.code) {
        var g :| g in groups + added && g.code == s.code;
        assert g !in added;
      }
    }
  }

  /** What a run creates depends on the existing groups only through the
      searches for the wanted codes. */
  lemma {:induction false} CreatedSameSearches(g1: seq<CustomerGroup>, g2: seq<CustomerGroup>, specs: seq<GroupSpec>,
                                                taxClassOf: string -> Option<nat>, fails: string -> bool)
    requires forall s :: s in specs ==> HasCode(g1, s.code) == HasCode(g2, s.code)
    ensures Created(g1, specs, taxClassOf, fails) == Created(g2, specs, taxClassOf, fails)
  {
    if specs != [] {
      assert specs[0] in specs;
      assert forall x :: x in specs[1..] ==> x in specs;
      CreatedSameSearches(g1, g2, specs[1..], taxClassOf, fails);
    }
  }

  /** For any wanted codes that are no saved code: when none exists and none
      fails, one run creates them all and afterwards none is found. So on a
      second run, with its own failures, the search skips nothing: it creates
      exactly what a first run from the original groups with those failures
      would, and all of them again when nothing fails. */
  lemma RerunCreatesAll(groups: seq<CustomerGroup>, specs: seq<GroupSpec>,
                        taxClassOf: string -> Option<nat>, fails: string -> bool, rerunFails: string -> bool)
    requires CodesDisjoint(specs)
    requires forall s :: s in specs ==> !HasCode(groups, s.code) && !fails(s.code)
    ensures var once := Run(groups, specs, taxClassOf, fails);
            && |once| == |groups| + |specs|
            && (forall s :: s in specs ==> !HasCode(once, s.code))
            && Run(once, specs, taxClassOf, rerunFails) == once + Created(groups, specs, taxClassOf, rerunFails)
    ensures (forall s :: s in specs ==> !rerunFails(s.code)) ==>
              |Run(Run(groups, specs, taxClassOf, fails), specs, taxClassOf, rerunFails)| == |groups| + 2 * |specs|
  {
    var created := Created(groups, specs, taxClassOf, fails);
    RunAppendsCreated(groups, specs, taxClassOf, fails);
    CreatedAll(groups, specs, taxClassOf, fails);
    CreatedFromSpecs(groups, specs, taxClassOf, fails);
    SearchesUnaffected(groups, created, specs);
    var once := groups + created;
    RunAppendsCreated(once, specs, taxClassOf, rerunFails);
    CreatedSameSearches(once, groups, specs, taxClassOf, rerunFails);
    if forall s :: s in specs ==> !rerunFails(s.code) {
      CreatedAll(groups, specs, taxClassOf, rerunFails);
    }
  }

  /** The search looks for the raw code while the group is saved under the
      transformed one, so after a run in which nothing failed none of the
      three raw codes is found, and a second run goes on to save every group
      it does not fail on: all three again when nothing fails. */
  lemma RerunCreatesAgain(groups: seq<CustomerGroup>, taxClassOf: string -> Option<nat>,
                          fails: string -> bool, rerunFails: string -> bool)
    requires forall s :: s in DefaultGroups ==> !HasCode(groups, s.code) && !fails(s.code)
    ensures var once := Run(groups, DefaultGroups, taxClassOf, fails);
            && |once| == |groups| + 3
            && (forall s :: s in DefaultGroups ==> !HasCode(once, s.code))
            && Run(once, DefaultGroups, taxClassOf, rerunFails)
                 == once + Created(groups, DefaultGroups, taxClassOf, rerunFails)
    ensures (forall s :: s in DefaultGroups ==> !rerunFails(s.code)) ==>
              |Run(Run(groups, DefaultGroups, taxClassOf, fails), DefaultGroups, taxClassOf, rerunFails)| == |groups| + 6
  {
    DefaultCodesDisjoint();
    RerunCreatesAll(groups, DefaultGroups, taxClassOf, fails, rerunFails);
  }
}
