/**
 * The state-name table of utils/geocode.py and `get_state_abbrev`: the 50 states and the
 * District of Columbia, lower-case full name to two-letter postal abbreviation.
 * The table is written in chunks of nine so that facts about it stay cheap to prove.
 */
module StateAbbrevs {
  import opened Wrappers
  import opened PyText
  import opened Seqs

  const Names0: seq<string> := ["alabama", "alaska", "arizona", "arkansas", "california", "colorado", "connecticut", "delaware", "florida"]
  const Names1: seq<string> := ["georgia", "hawaii", "idaho", "illinois", "indiana", "iowa", "kansas", "kentucky", "louisiana"]
  const Names2: seq<string> := ["maine", "maryland", "massachusetts", "michigan", "minnesota", "mississippi", "missouri", "montana", "nebraska"]
  const Names3: seq<string> := ["nevada", "new hampshire", "new jersey", "new mexico", "new york", "north carolina", "north dakota", "ohio", "oklahoma"]
  const Names4: seq<string> := ["oregon", "pennsylvania", "rhode island", "south carolina", "south dakota", "tennessee", "texas", "utah", "vermont"]
  const Names5: seq<string> := ["virginia", "washington", "west virginia", "wisconsin", "wyoming", "district of columbia"]
  const Abbrevs0: seq<string> := ["AL", "AK", "AZ", "AR", "CA", "CO", "CT", "DE", "FL"]
  const Abbrevs1: seq<string> := ["GA", "HI", "ID", "IL", "IN", "IA", "KS", "KY", "LA"]
  const Abbrevs2: seq<string> := ["ME", "MD", "MA", "MI", "MN", "MS", "MO", "MT", "NE"]
  const Abbrevs3: seq<string> := ["NV", "NH", "NJ", "NM", "NY", "NC", "ND", "OH", "OK"]
  const Abbrevs4: seq<string> := ["OR", "PA", "RI", "SC", "SD", "TN", "TX", "UT", "VT"]
  const Abbrevs5: seq<string> := ["VA", "WA", "WV", "WI", "WY", "DC"]

  /** The keys of the table, in the order they are written. */
  const Names: seq<string> := Names0 + (Names1 + (Names2 + (Names3 + (Names4 + Names5))))

  /** The values of the table: `Abbrevs[i]` is the abbreviation of `Names[i]`. */
  const Abbrevs: seq<string> := Abbrevs0 + (Abbrevs1 + (Abbrevs2 + (Abbrevs3 + (Abbrevs4 + Abbrevs5))))

  /** A key of the table: lower-case letters and inner spaces, longer than an abbreviation. */
  ghost predicate IsStateName(n: string) {
    |n| > 2 && n[0] != ' ' && n[|n| - 1] != ' ' &&
    forall i :: 0 <= i < |n| ==> ('a' <= n[i] <= 'z') || n[i] == ' '
  }

  /** A value of the table: two upper-case ASCII letters. */
  ghost predicate IsAbbrev(a: string) {
    |a| == 2 && 'A' <= a[0] <= 'Z' && 'A' <= a[1] <= 'Z'
  }

  ghost predicate AllNames(s: seq<string>) {
    forall i :: 0 <= i < |s| ==> IsStateName(s[i])
  }

  ghost predicate AllAbbrevs(s: seq<string>) {
    forall i :: 0 <= i < |s| ==> IsAbbrev(s[i])
  }

  /** Every name of `s` starts with a letter of `letters`. */
  ghost predicate Initials(s: seq<string>, letters: set<char>) {
    forall i :: 0 <= i < |s| ==> s[i] != [] && s[i][0] in letters
  }

  /** Names whose first letters come from disjoint sets are different names. */
  lemma ApartByInitials(a: seq<string>, b: seq<string>, la: set<char>, lb: set<char>)
    requires Initials(a, la) && Initials(b, lb) && la !! lb
    ensures Disjoint(a, b)
  {
    forall x | x in a ensures x !in b {
      var i :| 0 <= i < |a| && a[i] == x;
      forall j | 0 <= j < |b| ensures b[j] != x {
        assert b[j][0] in lb;
      }
    }
  }

  const Initials0: set<char> := {'a', 'c', 'd', 'f'}

  lemma NamesInitials0()
    ensures Initials(Names0, Initials0)
  {
  }

  const Initials1: set<char> := {'g', 'h', 'i', 'k', 'l'}

  lemma NamesInitials1()
    ensures Initials(Names1, Initials1)
  {
  }

  const Initials2: set<char> := {'m', 'n'}

  lemma NamesInitials2()
    ensures Initials(Names2, Initials2)
  {
  }

  const Initials3: set<char> := {'n', 'o'}

  lemma NamesInitials3()
    ensures Initials(Names3, Initials3)
  {
  }

  const Initials4: set<char> := {'o', 'p', 'r', 's', 't', 'u', 'v'}

  lemma NamesInitials4()
    ensures Initials(Names4, Initials4)
  {
  }

  const Initials5: set<char> := {'d', 'v', 'w'}

  lemma NamesInitials5()
    ensures Initials(Names5, Initials5)
  {
  }

  lemma NamesDistinct0()
    ensures NoDup(Names0)
  {
  }

  lemma NamesApart01()
    ensures Disjoint(Names0, Names1)
  {
    NamesInitials0();
    NamesInitials1();
    ApartByInitials(Names0, Names1, Initials0, Initials1);
  }

  lemma NamesApart02()
    ensures Disjoint(Names0, Names2)
  {
    NamesInitials0();
    NamesInitials2();
    ApartByInitials(Names0, Names2, Initials0, Initials2);
  }

  lemma NamesApart03()
    ensures Disjoint(Names0, Names3)
  {
    NamesInitials0();
    NamesInitials3();
    ApartByInitials(Names0, Names3, Initials0, Initials3);
  }

  lemma NamesApart04()
    ensures Disjoint(Names0, Names4)
  {
    NamesInitials0();
    NamesInitials4();
    ApartByInitials(Names0, Names4, Initials0, Initials4);
  }

  lemma NamesApart05()
    ensures Disjoint(Names0, Names5)
  {
  }

  lemma NamesApart12()
    ensures Disjoint(Names1, Names2)
  {
    NamesInitials1();
    NamesInitials2();
    ApartByInitials(Names1, Names2, Initials1, Initials2);
  }

  lemma NamesApart13()
    ensures Disjoint(Names1, Names3)
  {
    NamesInitials1();
    NamesInitials3();
    ApartByInitials(Names1, Names3, Initials1, Initials3);
  }

  lemma NamesApart14()
    ensures Disjoint(Names1, Names4)
  {
    NamesInitials1();
    NamesInitials4();
    ApartByInitials(Names1, Names4, Initials1, Initials4);
  }

  lemma NamesApart15()
    ensures Disjoint(Names1, Names5)
  {
    NamesInitials1();
    NamesInitials5();
    ApartByInitials(Names1, Names5, Initials1, Initials5);
  }

  lemma NamesApart23()
    ensures Disjoint(Names2, Names3)
  {
  }

  lemma NamesApart24()
    ensures Disjoint(Names2, Names4)
  {
    NamesInitials2();
    NamesInitials4();
    ApartByInitials(Names2, Names4, Initials2, Initials4);
  }

  lemma NamesApart25()
    ensures Disjoint(Names2, Names5)
  {
    NamesInitials2();
    NamesInitials5();
    ApartByInitials(Names2, Names5, Initials2, Initials5);
  }

  lemma NamesApart34()
    ensures Disjoint(Names3, Names4)
  {
  }

  lemma NamesApart35()
    ensures Disjoint(Names3, Names5)
  {
    NamesInitials3();
    NamesInitials5();
    ApartByInitials(Names3, Names5, Initials3, Initials5);
  }

  lemma NamesApart45()
    ensures Disjoint(Names4, Names5)
  {
  }

  lemma NamesShape0()
    ensures AllNames(Names0)
  {
    assert IsStateName(Names0[0]);
    assert IsStateName(Names0[1]);
    assert IsStateName(Names0[2]);
    assert IsStateName(Names0[3]);
    assert IsStateName(Names0[4]);
    assert IsStateName(Names0[5]);
    assert IsStateName(Names0[6]);
    assert IsStateName(Names0[7]);
    assert IsStateName(Names0[8]);
  }

  lemma NamesDistinct1()
    ensures NoDup(Names1)
  {
  }

  lemma NamesShape1()
    ensures AllNames(Names1)
  {
    assert IsStateName(Names1[0]);
    assert IsStateName(Names1[1]);
    assert IsStateName(Names1[2]);
    assert IsStateName(Names1[3]);
    assert IsStateName(Names1[4]);
    assert IsStateName(Names1[5]);
    assert IsStateName(Names1[6]);
    assert IsStateName(Names1[7]);
    assert IsStateName(Names1[8]);
  }

  lemma NamesDistinct2()
    ensures NoDup(Names2)
  {
  }

  lemma NamesShape2()
    ensures AllNames(Names2)
  {
    assert IsStateName(Names2[0]);
    assert IsStateName(Names2[1]);
    assert IsStateName(Names2[2]);
    assert IsStateName(Names2[3]);
    assert IsStateName(Names2[4]);
    assert IsStateName(Names2[5]);
    assert IsStateName(Names2[6]);
    assert IsStateName(Names2[7]);
    assert IsStateName(Names2[8]);
  }

  lemma NamesDistinct3()
    ensures NoDup(Names3)
  {
  }

  lemma NamesShape3()
    ensures AllNames(Names3)
  {
    assert IsStateName(Names3[0]);
    assert IsStateName(Names3[1]);
    assert IsStateName(Names3[2]);
    assert IsStateName(Names3[3]);
    assert IsStateName(Names3[4]);
    assert IsStateName(Names3[5]);
    assert IsStateName(Names3[6]);
    assert IsStateName(Names3[7]);
    assert IsStateName(Names3[8]);
  }

  lemma NamesDistinct4()
    ensures NoDup(Names4)
  {
  }

  lemma NamesShape4()
    ensures AllNames(Names4)
  {
    assert IsStateName(Names4[0]);
    assert IsStateName(Names4[1]);
    assert IsStateName(Names4[2]);
    assert IsStateName(Names4[3]);
    assert IsStateName(Names4[4]);
    assert IsStateName(Names4[5]);
    assert IsStateName(Names4[6]);
    assert IsStateName(Names4[7]);
    assert IsStateName(Names4[8]);
  }

  lemma NamesDistinct5()
    ensures NoDup(Names5)
  {
  }

  lemma NamesShape5()
    ensures AllNames(Names5)
  {
    assert IsStateName(Names5[0]);
    assert IsStateName(Names5[1]);
    assert IsStateName(Names5[2]);
    assert IsStateName(Names5[3]);
    assert IsStateName(Names5[4]);
    assert IsStateName(Names5[5]);
  }

  lemma AbbrevsShape0()
    ensures AllAbbrevs(Abbrevs0)
  {
  }

  lemma AbbrevsShape1()
    ensures AllAbbrevs(Abbrevs1)
  {
  }

  lemma AbbrevsShape2()
    ensures AllAbbrevs(Abbrevs2)
  {
  }

  lemma AbbrevsShape3()
    ensures AllAbbrevs(Abbrevs3)
  {
  }

  lemma AbbrevsShape4()
    ensures AllAbbrevs(Abbrevs4)
  {
  }

  lemma AbbrevsShape5()
    ensures AllAbbrevs(Abbrevs5)
  {
  }

  lemma AbbrevsDistinct0()
    ensures NoDup(Abbrevs0)
  {
  }

  lemma AbbrevsDistinct1()
    ensures NoDup(Abbrevs1)
  {
  }

  lemma AbbrevsDistinct2()
    ensures NoDup(Abbrevs2)
  {
  }

  lemma AbbrevsDistinct3()
    ensures NoDup(Abbrevs3)
  {
  }

  lemma AbbrevsDistinct4()
    ensures NoDup(Abbrevs4)
  {
  }

  lemma AbbrevsDistinct5()
    ensures NoDup(Abbrevs5)
  {
  }

  lemma AbbrevsApart01()
    ensures Disjoint(Abbrevs0, Abbrevs1)
  {
  }

  lemma AbbrevsApart02()
    ensures Disjoint(Abbrevs0, Abbrevs2)
  {
  }

  lemma AbbrevsApart03()
    ensures Disjoint(Abbrevs0, Abbrevs3)
  {
  }

  lemma AbbrevsApart04()
    ensures Disjoint(Abbrevs0, Abbrevs4)
  {
  }

  lemma AbbrevsApart05()
    ensures Disjoint(Abbrevs0, Abbrevs5)
  {
  }

  lemma AbbrevsApart12()
    ensures Disjoint(Abbrevs1, Abbrevs2)
  {
  }

  lemma AbbrevsApart13()
    ensures Disjoint(Abbrevs1, Abbrevs3)
  {
  }

  lemma AbbrevsApart14()
    ensures Disjoint(Abbrevs1, Abbrevs4)
  {
  }

  lemma AbbrevsApart15()
    ensures Disjoint(Abbrevs1, Abbrevs5)
  {
  }

  lemma AbbrevsApart23()
    ensures Disjoint(Abbrevs2, Abbrevs3)
  {
  }

  lemma AbbrevsApart24()
    ensures Disjoint(Abbrevs2, Abbrevs4)
  {
  }

  lemma AbbrevsApart25()
    ensures Disjoint(Abbrevs2, Abbrevs5)
  {
  }

  lemma AbbrevsApart34()
    ensures Disjoint(Abbrevs3, Abbrevs4)
  {
  }

  lemma AbbrevsApart35()
    ensures Disjoint(Abbrevs3, Abbrevs5)
  {
  }

  lemma AbbrevsApart45()
    ensures Disjoint(Abbrevs4, Abbrevs5)
  {
  }

  lemma AllNamesAppend(a: seq<string>, b: seq<string>)
    requires AllNames(a) && AllNames(b)
    ensures AllNames(a + b)
  {
    forall i | 0 <= i < |a + b| ensures IsStateName((a + b)[i]) {
      if i >= |a| {
        assert (a + b)[i] == b[i - |a|];
      }
    }
  }

  lemma AllAbbrevsAppend(a: seq<string>, b: seq<string>)
    requires AllAbbrevs(a) && AllAbbrevs(b)
    ensures AllAbbrevs(a + b)
  {
    forall i | 0 <= i < |a + b| ensures IsAbbrev((a + b)[i]) {
      if i >= |a| {
        assert (a + b)[i] == b[i - |a|];
      }
    }
  }

  /** No full name is written twice. */
  lemma NamesNoDup()
    ensures NoDup(Names) && AllNames(Names)
  {
    NamesDistinct0(); NamesShape0();
    NamesDistinct1(); NamesShape1();
    NamesDistinct2(); NamesShape2();
    NamesDistinct3(); NamesShape3();
    NamesDistinct4(); NamesShape4();
    NamesDistinct5(); NamesShape5();
    NamesApart45();
    NoDupAppend(Names4, Names5);
    AllNamesAppend(Names4, Names5);
    NamesApart35();
    NamesApart34();
    DisjointAppend(Names3, Names4, Names5);
    NoDupAppend(Names3, Names4 + Names5);
    AllNamesAppend(Names3, Names4 + Names5);
    NamesApart25();
    NamesApart24();
    NamesApart23();
    DisjointAppend(Names2, Names4, Names5);
    DisjointAppend(Names2, Names3, Names4 + Names5);
    NoDupAppend(Names2, Names3 + (Names4 + Names5));
    AllNamesAppend(Names2, Names3 + (Names4 + Names5));
    NamesApart15();
    NamesApart14();
    NamesApart13();
    NamesApart12();
    DisjointAppend(Names1, Names4, Names5);
    DisjointAppend(Names1, Names3, Names4 + Names5);
    DisjointAppend(Names1, Names2, Names3 + (Names4 + Names5));
    NoDupAppend(Names1, Names2 + (Names3 + (Names4 + Names5)));
    AllNamesAppend(Names1, Names2 + (Names3 + (Names4 + Names5)));
    NamesApart05();
    NamesApart04();
    NamesApart03();
    NamesApart02();
    NamesApart01();
    DisjointAppend(Names0, Names4, Names5);
    DisjointAppend(Names0, Names3, Names4 + Names5);
    DisjointAppend(Names0, Names2, Names3 + (Names4 + Names5));
    DisjointAppend(Names0, Names1, Names2 + (Names3 + (Names4 + Names5)));
    NoDupAppend(Names0, Names1 + (Names2 + (Names3 + (Names4 + Names5))));
    AllNamesAppend(Names0, Names1 + (Names2 + (Names3 + (Names4 + Names5))));
  }

  /** Every abbreviation is two upper-case letters. */
  lemma AbbrevsShape()
    ensures AllAbbrevs(Abbrevs)
  {
    AbbrevsShape0();
    AbbrevsShape1();
    AbbrevsShape2();
    AbbrevsShape3();
    AbbrevsShape4();
    AbbrevsShape5();
    AllAbbrevsAppend(Abbrevs4, Abbrevs5);
    AllAbbrevsAppend(Abbrevs3, Abbrevs4 + Abbrevs5);
    AllAbbrevsAppend(Abbrevs2, Abbrevs3 + (Abbrevs4 + Abbrevs5));
    AllAbbrevsAppend(Abbrevs1, Abbrevs2 + (Abbrevs3 + (Abbrevs4 + Abbrevs5)));
    AllAbbrevsAppend(Abbrevs0, Abbrevs1 + (Abbrevs2 + (Abbrevs3 + (Abbrevs4 + Abbrevs5))));
  }

  /** No abbreviation is written twice. */
  lemma AbbrevsNoDup()
    ensures NoDup(Abbrevs) && AllAbbrevs(Abbrevs)
  {
    AbbrevsShape();
    AbbrevsDistinct0();
    AbbrevsDistinct1();
    AbbrevsDistinct2();
    AbbrevsDistinct3();
    AbbrevsDistinct4();
    AbbrevsDistinct5();
    AbbrevsApart45();
    NoDupAppend(Abbrevs4, Abbrevs5);
    AbbrevsApart35();
    AbbrevsApart34();
    DisjointAppend(Abbrevs3, Abbrevs4, Abbrevs5);
    NoDupAppend(Abbrevs3, Abbrevs4 + Abbrevs5);
    AbbrevsApart25();
    AbbrevsApart24();
    AbbrevsApart23();
    DisjointAppend(Abbrevs2, Abbrevs4, Abbrevs5);
    DisjointAppend(Abbrevs2, Abbrevs3, Abbrevs4 + Abbrevs5);
    NoDupAppend(Abbrevs2, Abbrevs3 + (Abbrevs4 + Abbrevs5));
    AbbrevsApart15();
    AbbrevsApart14();
    AbbrevsApart13();
    AbbrevsApart12();
    DisjointAppend(Abbrevs1, Abbrevs4, Abbrevs5);
    DisjointAppend(Abbrevs1, Abbrevs3, Abbrevs4 + Abbrevs5);
    DisjointAppend(Abbrevs1, Abbrevs2, Abbrevs3 + (Abbrevs4 + Abbrevs5));
    NoDupAppend(Abbrevs1, Abbrevs2 + (Abbrevs3 + (Abbrevs4 + Abbrevs5)));
    AbbrevsApart05();
    AbbrevsApart04();
    AbbrevsApart03();
    AbbrevsApart02();
    AbbrevsApart01();
    DisjointAppend(Abbrevs0, Abbrevs4, Abbrevs5);
    DisjointAppend(Abbrevs0, Abbrevs3, Abbrevs4 + Abbrevs5);
    DisjointAppend(Abbrevs0, Abbrevs2, Abbrevs3 + (Abbrevs4 + Abbrevs5));
    DisjointAppend(Abbrevs0, Abbrevs1, Abbrevs2 + (Abbrevs3 + (Abbrevs4 + Abbrevs5)));
    NoDupAppend(Abbrevs0, Abbrevs1 + (Abbrevs2 + (Abbrevs3 + (Abbrevs4 + Abbrevs5))));
  }

  /** The table has 51 distinct, well-formed names and 51 distinct, well-formed abbreviations. */
  lemma TableShape()
    ensures |Names| == 51 && |Abbrevs| == 51
    ensures NoDup(Names) && AllNames(Names)
    ensures NoDup(Abbrevs) && AllAbbrevs(Abbrevs)
  {
    NamesNoDup();
    AbbrevsNoDup();
  }

  /** A dictionary from two parallel lists of keys and values. */
  function Zip(keys: seq<string>, values: seq<string>): (m: map<string, string>)
    requires |keys| == |values| && NoDup(keys)
    ensures m.Keys == set k | k in keys
    ensures forall i :: 0 <= i < |keys| ==> m[keys[i]] == values[i]
    ensures forall a :: a in m.Values <==> a in values
  {
    var m := map i | 0 <= i < |keys| :: keys[i] := values[i];
    assert forall a :: a in values ==> a in m.Values by {
      forall a | a in values ensures a in m.Values {
        var i :| 0 <= i < |values| && values[i] == a;
        assert m[keys[i]] == a;
      }
    }
    m
  }

  /** `STATE_ABBREVS`: each name maps to the abbreviation written beside it. */
  function StateAbbrevsMap(): (m: map<string, string>)
    ensures m.Keys == set n | n in Names
    ensures forall i :: 0 <= i < |Names| ==> m[Names[i]] == Abbrevs[i]
    ensures forall a :: a in m.Values <==> a in Abbrevs
  {
    TableShape();
    Zip(Names, Abbrevs)
  }

  /** The dictionary has exactly 51 entries. */
  lemma StateAbbrevsSize()
    ensures |StateAbbrevsMap()| == 51
  {
    TableShape();
    CardOfNoDup(Names);
  }

  /** Different names have different abbreviations. */
  lemma StateAbbrevsInjective(n1: string, n2: string)
    requires n1 in StateAbbrevsMap() && n2 in StateAbbrevsMap()
    requires StateAbbrevsMap()[n1] == StateAbbrevsMap()[n2]
    ensures n1 == n2
  {
    TableShape();
    var i :| 0 <= i < |Names| && Names[i] == n1;
    var j :| 0 <= j < |Names| && Names[j] == n2;
    assert Abbrevs[i] == Abbrevs[j];
  }

  /**
   * `get_state_abbrev(state_name)` over a given table: a two-character input is accepted
   * when, upper-cased, it is one of the table's values; anything else is lower-cased,
   * stripped and looked up as a key.
   */
  function LookupAbbrev(table: map<string, string>, stateName: string): (r: Option<string>)
    ensures r.Some? ==> r.value in table.Values
    ensures stateName == [] ==> r == None
  {
    if stateName == [] then None
    else if |stateName| == 2 && Upper(stateName) in table.Values then Some(Upper(stateName))
    else
      var lookup := Strip(Lower(stateName));
      if lookup in table then Some(table[lookup]) else None
  }

  /** `get_state_abbrev` on `STATE_ABBREVS`: the answer, if any, is one of the 51 abbreviations. */
  function GetStateAbbrev(stateName: string): (r: Option<string>)
    ensures r.Some? ==> r.value in Abbrevs
    ensures stateName == [] ==> r == None
  {
    LookupAbbrev(StateAbbrevsMap(), stateName)
  }

  lemma NameLower(n: string)
    requires IsStateName(n)
    ensures Lower(n) == n
  {
    forall i | 0 <= i < |n| ensures Lower(n)[i] == n[i] {
      assert ('a' <= n[i] <= 'z') || n[i] == ' ';
    }
  }

  lemma NameUpperLower(n: string)
    requires IsStateName(n)
    ensures Lower(Upper(n)) == n
  {
    var u := Upper(n);
    forall i | 0 <= i < |n| ensures Lower(u)[i] == n[i] {
      assert ('a' <= n[i] <= 'z') || n[i] == ' ';
    }
  }

  lemma LetterNotSpace(c: char)
    requires 'a' <= c <= 'z' || c == ' '
    ensures c != ' ' ==> !IsSpace(c)
  {
  }

  lemma NameTrimmed(n: string)
    requires IsStateName(n)
    ensures Strip(n) == n
  {
    LetterNotSpace(n[0]);
    LetterNotSpace(n[|n| - 1]);
    StripOfTrimmed(n);
  }

  lemma NameCase(n: string)
    requires IsStateName(n)
    ensures Strip(Lower(n)) == n && Strip(Lower(Upper(n))) == n
    ensures |n| > 2 && |Upper(n)| > 2
  {
    NameLower(n);
    NameUpperLower(n);
    NameTrimmed(n);
  }

  lemma AbbrevCase(a: string)
    requires IsAbbrev(a)
    ensures Upper(a) == a && Upper(Lower(a)) == a && |Lower(a)| == 2
  {
    assert Upper(a) == a;
    assert Upper(Lower(a)) == a;
  }

  /** An input that is not two characters long is found by its lower-cased, stripped form. */
  lemma LookupLong(table: map<string, string>, s: string)
    requires s != [] && |s| != 2 && Strip(Lower(s)) in table
    ensures LookupAbbrev(table, s) == Some(table[Strip(Lower(s))])
  {
  }

  /** A value of the table, in upper or lower case, is returned as it is. */
  lemma LookupValue(table: map<string, string>, a: string)
    requires IsAbbrev(a) && a in table.Values
    ensures LookupAbbrev(table, a) == Some(a)
    ensures LookupAbbrev(table, Lower(a)) == Some(a)
  {
    AbbrevCase(a);
  }

  /**
   * Every full name, in lower or upper case, resolves to its abbreviation, and every
   * abbreviation, in upper or lower case, resolves to itself.
   */
  lemma GetStateAbbrevTable(i: nat)
    requires i < |Names|
    ensures GetStateAbbrev(Names[i]) == Some(Abbrevs[i])
    ensures GetStateAbbrev(Upper(Names[i])) == Some(Abbrevs[i])
    ensures GetStateAbbrev(Abbrevs[i]) == Some(Abbrevs[i])
    ensures GetStateAbbrev(Lower(Abbrevs[i])) == Some(Abbrevs[i])
  {
    TableShape();
    var n := Names[i];
    NameCase(n);
    LookupLong(StateAbbrevsMap(), n);
    LookupLong(StateAbbrevsMap(), Upper(n));
    LookupValue(StateAbbrevsMap(), Abbrevs[i]);
  }

  /** An abbreviation that comes out goes back in unchanged. */
  lemma GetStateAbbrevIdempotent(stateName: string)
    requires GetStateAbbrev(stateName).Some?
    ensures GetStateAbbrev(GetStateAbbrev(stateName).value) == GetStateAbbrev(stateName)
  {
    var a := GetStateAbbrev(stateName).value;
    var i :| 0 <= i < |Abbrevs| && Abbrevs[i] == a;
    TableShape();
    GetStateAbbrevTable(i);
  }
}
