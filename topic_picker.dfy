/**
  The topic picker the settings page (frontend/app/settings/page.tsx) and
  the onboarding page (frontend/app/onboarding/page.tsx) share, written the
  same way in both: toggling a topic in the selected list, adding a custom
  topic from the input field, and removing one.
  */
module TopicPicker {
  import opened Types
  import opened JsString
  import opened Table

  predicate Distinct(s: seq<string>) {
    forall i, j :: 0 <= i < j < |s| ==> s[i] != s[j]
  }

  /** Filtering keeps a list free of duplicates. */
  lemma {:induction false} WhereKeepsDistinct(s: seq<string>, p: string -> bool)
    requires Distinct(s)
    ensures Distinct(Where(s, p))
    decreases |s|
  {
    if s != [] {
      WhereKeepsDistinct(s[1..], p);
      assert s[0] !in s[1..];
      var rest := Where(s[1..], p);
      if p(s[0]) {
        assert Where(s, p) == [s[0]] + rest;
        assert s[0] !in rest;
      } else {
        assert Where(s, p) == rest;
      }
    }
  }

  /** Dropping every occurrence of one topic takes exactly its copies out. */
  lemma {:induction false} WhereDropsOne(s: seq<string>, topic: string)
    ensures multiset(Where(s, (t: string) => t != topic)) == multiset(s)[topic := 0]
    decreases |s|
  {
    var p := (t: string) => t != topic;
    if s == [] {
      assert multiset(s) == multiset{};
    } else {
      WhereDropsOne(s[1..], topic);
      assert s == [s[0]] + s[1..];
      assert multiset(s) == multiset{s[0]} + multiset(s[1..]);
      if s[0] == topic {
        assert Where(s, p) == Where(s[1..], p);
      } else {
        assert Where(s, p) == [s[0]] + Where(s[1..], p);
        assert multiset(Where(s, p)) == multiset{s[0]} + multiset(s[1..])[topic := 0];
      }
    }
  }

  /** `prev.filter(t => t !== topic)`: `removeCustomTopic`, and the removing
      half of `toggleTopic`. */
  function Without(s: seq<string>, topic: string): (r: seq<string>)
    ensures forall t :: t in r <==> t in s && t != topic
    ensures multiset(r) == multiset(s)[topic := 0]
    ensures Distinct(s) ==> Distinct(r)
  {
    WhereDropsOne(s, topic);
    if Distinct(s) then
      WhereKeepsDistinct(s, (t: string) => t != topic);
      Where(s, (t: string) => t != topic)
    else Where(s, (t: string) => t != topic)
  }

  /** Removing keeps the others in their order: it distributes over any
      split of the list. */
  lemma WithoutKeepsOrder(a: seq<string>, b: seq<string>, topic: string)
    ensures Without(a + b, topic) == Without(a, topic) + Without(b, topic)
  {
    WhereAppend(a, b, (t: string) => t != topic);
  }

  /** `toggleTopic`: a selected topic is removed (every copy of it), any
      other one appended. */
  function Toggle(selected: seq<string>, topic: string): (r: seq<string>)
    ensures topic in r <==> topic !in selected
    ensures forall t :: t != topic ==> (t in r <==> t in selected)
    ensures topic in selected ==> multiset(r) == multiset(selected)[topic := 0]
    ensures topic !in selected ==> r == selected + [topic]
    ensures Distinct(selected) ==> Distinct(r)
  {
    if topic in selected then Without(selected, topic) else selected + [topic]
  }

  /** Toggling twice restores what is selected, and when the topic was not
      selected, the very list. */
  lemma ToggleTwice(selected: seq<string>, topic: string)
    ensures forall t :: t in Toggle(Toggle(selected, topic), topic) <==> t in selected
    ensures topic !in selected ==> Toggle(Toggle(selected, topic), topic) == selected
  {
    if topic !in selected {
      var p := (t: string) => t != topic;
      WhereAppend(selected, [topic], p);
      WhereAll(selected, p);
      assert Where([topic], p) == [];
    }
  }

  /** A custom topic as the picker admits it: trimmed, non-empty and not one
      of the curated topics. */
  predicate CleanCustom(t: string) {
    t != "" && Trim(t) == t && !IsCurated(t)
  }

  /** What the picker keeps true of the custom list. */
  predicate CustomOk(custom: seq<string>) {
    Distinct(custom) && forall t :: t in custom ==> CleanCustom(t)
  }

  /** `addCustomTopic`: the new custom list and the new input field. The
      trimmed input is appended, and the field cleared, only when it is
      non-empty, not custom yet and not curated; otherwise nothing changes. */
  function AddCustom(custom: seq<string>, input: string): (r: (seq<string>, string))
    ensures (r.0 == custom + [Trim(input)] && r.1 == "") || r == (custom, input)
    ensures r.0 != custom <==> Trim(input) != "" && Trim(input) !in custom && !IsCurated(Trim(input))
    ensures CustomOk(custom) ==> CustomOk(r.0)
  {
    var topic := Trim(input);
    TrimIdempotent(input);
    if topic != "" && topic !in custom && !IsCurated(topic) then (custom + [topic], "") else (custom, input)
  }

  /** Removing a custom topic keeps the list clean. */
  lemma RemoveKeepsCustomOk(custom: seq<string>, topic: string)
    requires CustomOk(custom)
    ensures CustomOk(Without(custom, topic))
    ensures topic !in Without(custom, topic) && |Without(custom, topic)| == |custom| - (if topic in custom then 1 else 0)
  {
    var r := Without(custom, topic);
    if topic in custom {
      var i :| 0 <= i < |custom| && custom[i] == topic;
      assert multiset(custom)[topic] == 1 by {
        DistinctCountsOne(custom, i);
      }
      assert |multiset(r)| == |multiset(custom)| - 1;
    } else {
      assert multiset(custom)[topic] == 0;
      assert multiset(r) == multiset(custom);
    }
  }

  /** In a list without duplicates every entry occurs once. */
  lemma {:induction false} DistinctCountsOne(s: seq<string>, i: nat)
    requires Distinct(s) && i < |s|
    ensures multiset(s)[s[i]] == 1
    decreases |s|
  {
    assert s == [s[0]] + s[1..];
    if i == 0 {
      assert s[0] !in s[1..];
      assert multiset(s[1..])[s[0]] == 0;
    } else {
      DistinctCountsOne(s[1..], i - 1);
      assert s[1..][i - 1] == s[i];
    }
  }
}
