/**
 * The snippet store of the floating ball: the ordered list `options` of saved
 * texts and the companion set `option_set` used to reject duplicates, as values.
 * The widget's classes (floating_ball.dfy) are specified in terms of these
 * functions, and the lemmas below state what the store keeps and what it loses.
 */
module SnippetStore {
  import opened Wrappers

  /** The list and the set as the widget holds them; nothing ties them together by construction. */
  datatype Store = Store(options: seq<string>, optionSet: set<string>)

  /** What adding the clipboard text reports: appended, "already exists", or "no text". */
  datatype AddOutcome = Added | AlreadyExists | NoText

  function Elements(s: seq<string>): set<string> {
    set x | x in s
  }

  predicate NoDuplicates(s: seq<string>) {
    forall j, k :: 0 <= j < k < |s| ==> s[j] != s[k]
  }

  /** The invariant the store is meant to keep: the set mirrors the list, which has no repeats. */
  predicate Consistent(st: Store) {
    st.optionSet == Elements(st.options) && NoDuplicates(st.options)
  }

  /** `del s[i]` on a Python list. */
  function RemoveAt<T>(s: seq<T>, i: nat): (r: seq<T>)
    requires i < |s|
    ensures |r| == |s| - 1
    ensures forall k :: 0 <= k < i ==> r[k] == s[k]
    ensures forall k :: i <= k < |r| ==> r[k] == s[k + 1]
    ensures multiset(r) + multiset{s[i]} == multiset(s)
  {
    assert s == s[..i] + [s[i]] + s[i + 1..];
    s[..i] + s[i + 1..]
  }

  /** `load_options`: the list read from disk (none when the file is absent) and `set(options)`. */
  function Load(stored: Option<seq<string>>): (r: Store)
    ensures forall x :: x in r.optionSet <==> x in r.options
    ensures r.options == if stored.Some? then stored.value else []
  {
    match stored
    case None => Store([], {})
    case Some(s) => Store(s, Elements(s))
  }

  /** The branch `add_option_from_clipboard` takes for `text`. */
  function AddOutcomeOf(st: Store, text: string): (r: AddOutcome)
    ensures r == Added <==> text != "" && text !in st.optionSet
    ensures r == NoText <==> text == ""
  {
    if text == "" then NoText
    else if text in st.optionSet then AlreadyExists
    else Added
  }

  /** The store after `add_option_from_clipboard` with clipboard text `text`. */
  function Add(st: Store, text: string): (r: Store)
    ensures |r.options| == |st.options| + (if AddOutcomeOf(st, text) == Added then 1 else 0)
    ensures r.options[..|st.options|] == st.options
    ensures AddOutcomeOf(st, text) == Added ==> r.options[|st.options|] == text
    ensures text != "" ==> text in r.optionSet
    ensures st.optionSet <= r.optionSet
    ensures r.optionSet == if AddOutcomeOf(st, text) == Added then st.optionSet + {text} else st.optionSet
  {
    if AddOutcomeOf(st, text) == Added then Store(st.options + [text], st.optionSet + {text}) else st
  }

  /** The store after a right click on row `i` of the popup: `del options[i]`, then discard the text. */
  function Delete(st: Store, i: nat): (r: Store)
    requires i < |st.options|
    ensures |r.options| == |st.options| - 1
    ensures multiset(r.options) + multiset{st.options[i]} == multiset(st.options)
    ensures st.options[i] !in r.optionSet
    ensures r.optionSet <= st.optionSet
    ensures r.optionSet == st.optionSet - {st.options[i]}
  {
    Store(RemoveAt(st.options, i), st.optionSet - {st.options[i]})
  }

  /** A sequence of clipboard adds, one after another. */
  function AddAll(st: Store, texts: seq<string>): Store
    decreases |texts|
  {
    if texts == [] then st else AddAll(Add(st, texts[0]), texts[1..])
  }

  /** Loading yields a consistent store exactly when the file's list has no duplicates. */
  lemma LoadConsistentIff(stored: Option<seq<string>>)
    ensures Consistent(Load(stored)) <==> (stored.None? || NoDuplicates(stored.value))
  {
  }

  /** Every add keeps the invariant. */
  lemma AddPreservesConsistent(st: Store, text: string)
    requires Consistent(st)
    ensures Consistent(Add(st, text))
  {
    if AddOutcomeOf(st, text) == Added {
      var s := st.options + [text];
      assert text !in st.options;
      forall j, k | 0 <= j < k < |s| ensures s[j] != s[k] {
        if k == |s| - 1 {
          assert s[j] in st.options;
        }
      }
      assert Elements(s) == Elements(st.options) + {text};
    }
  }

  /** Every delete at a valid row keeps the invariant, and the deleted text is then gone from the list. */
  lemma DeletePreservesConsistent(st: Store, i: nat)
    requires Consistent(st) && i < |st.options|
    ensures Consistent(Delete(st, i))
    ensures st.options[i] !in Delete(st, i).options
  {
    var s, r := st.options, Delete(st, i).options;
    forall j, k | 0 <= j < k < |r| ensures r[j] != r[k] {
      var j', k' := if j < i then j else j + 1, if k < i then k else k + 1;
      assert r[j] == s[j'] && r[k] == s[k'];
    }
    forall x | x in r ensures x in Elements(s) - {s[i]} {
      var k :| 0 <= k < |r| && r[k] == x;
      var k' := if k < i then k else k + 1;
      assert x == s[k'];
    }
    forall x | x in Elements(s) - {s[i]} ensures x in r {
      var k :| 0 <= k < |s| && s[k] == x;
      if k < i {
        assert r[k] == x;
      } else {
        assert r[k - 1] == x;
      }
    }
    assert Elements(r) == Elements(s) - {s[i]};
  }

  /**
   * The drift: when the file holds two copies of a text, the loaded store is not consistent,
   * deleting one copy drops the text from the set while the other copy stays in the list,
   * and adding the text again then succeeds and leaves as many copies as there were before.
   */
  lemma DuplicateLoadDrifts(s: seq<string>, i: nat, j: nat)
    requires i < |s| && j < |s| && i != j && s[i] == s[j]
    ensures !Consistent(Load(Some(s)))
    ensures s[i] in Delete(Load(Some(s)), i).options
    ensures s[i] !in Delete(Load(Some(s)), i).optionSet
    ensures !Consistent(Delete(Load(Some(s)), i))
    ensures s[i] != "" ==>
              AddOutcomeOf(Delete(Load(Some(s)), i), s[i]) == Added &&
              multiset(Add(Delete(Load(Some(s)), i), s[i]).options)[s[i]] >= 2
  {
    var st := Delete(Load(Some(s)), i);
    var r := st.options;
    var j' := if j < i then j else j - 1;
    assert r[j'] == s[i];
    assert multiset(r)[s[i]] >= 1;
    assert multiset(s)[s[i]] >= 2;
    if s[i] != "" {
      assert Add(st, s[i]).options == r + [s[i]];
      assert multiset(r + [s[i]]) == multiset(s);
    }
  }

  /** Adding the same text twice: the second add reports that nothing was added and changes nothing. */
  lemma AddTwiceRejectsSecond(st: Store, text: string)
    ensures AddOutcomeOf(Add(st, text), text) != Added
    ensures Add(Add(st, text), text) == Add(st, text)
  {
  }

  /**
   * Adding distinct non-empty texts, none already present, appends them in call order,
   * so the list grows by exactly the number of calls, and the invariant still holds.
   */
  lemma {:induction false} AddAllDistinct(st: Store, texts: seq<string>)
    requires Consistent(st)
    requires NoDuplicates(texts)
    requires forall k :: 0 <= k < |texts| ==> texts[k] != "" && texts[k] !in st.optionSet
    ensures AddAll(st, texts).options == st.options + texts
    ensures Consistent(AddAll(st, texts))
    decreases |texts|
  {
    if texts != [] {
      var st' := Add(st, texts[0]);
      AddPreservesConsistent(st, texts[0]);
      var rest := texts[1..];
      forall k | 0 <= k < |rest| ensures rest[k] != "" && rest[k] !in st'.optionSet {
        assert rest[k] == texts[k + 1];
      }
      AddAllDistinct(st', rest);
      assert st.options + texts == st'.options + rest;
    }
  }

  /** The scenario: start empty, add "hello" twice, add "world", delete row 0. */
  lemma HelloWorldScenario()
    ensures var s0 := Load(None);
            var s1 := Add(s0, "hello");
            var s2 := Add(s1, "hello");
            var s3 := Add(s2, "world");
            AddOutcomeOf(s0, "hello") == Added && s1.options == ["hello"] &&
            AddOutcomeOf(s1, "hello") == AlreadyExists && s2 == s1 &&
            AddOutcomeOf(s2, "world") == Added && s3.options == ["hello", "world"] &&
            Delete(s3, 0).options == ["world"]
  {
    var s3 := Add(Add(Add(Load(None), "hello"), "hello"), "world");
    assert s3.options == ["hello", "world"];
    assert Delete(s3, 0).options == ["world"];
  }
}
