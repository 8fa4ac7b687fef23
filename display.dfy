/**
 * How the popup shows a saved text: a label cut to the first 20 characters with
 * `...` appended when the text is longer, and the full text kept as the row's tooltip.
 */
module Display {
  import SnippetStore

  const MaxShown: nat := 20
  const Ellipsis: string := "..."

  /** Python's slice `s[:n]`: the first `n` characters, or all of `s` when it is shorter. */
  function Slice(s: string, n: nat): (r: string)
    ensures |r| == (if |s| <= n then |s| else n)
    ensures r <= s
  {
    if |s| <= n then s else s[..n]
  }

  /** The display label of one saved text. */
  function Label(text: string): (r: string)
    ensures |text| <= MaxShown ==> r == text
    ensures |text| > MaxShown ==> r == text[..MaxShown] + Ellipsis
    ensures |r| <= MaxShown + |Ellipsis|
    ensures Slice(text, MaxShown) <= r
  {
    var shown := Slice(text, MaxShown);
    if |text| > MaxShown then shown + Ellipsis else shown
  }

  /**
   * Two texts get the same label exactly when they are equal or both are longer than
   * 20 characters and agree on their first 20: labels alone cannot tell rows apart,
   * which is why a row keeps its full text as the tooltip.
   */
  lemma LabelsEqualIff(a: string, b: string)
    ensures Label(a) == Label(b) <==>
            (a == b || (|a| > MaxShown && |b| > MaxShown && a[..MaxShown] == b[..MaxShown]))
  {
    if Label(a) == Label(b) && a != b {
      assert |a| > MaxShown && |b| > MaxShown;
      assert a[..MaxShown] == Label(a)[..MaxShown];
      assert b[..MaxShown] == Label(b)[..MaxShown];
    }
  }

  /** One row of the popup list: what it shows and, as tooltip, the full text. */
  datatype ListItem = ListItem(displayText: string, toolTip: string)

  function ItemFor(option: string): ListItem {
    ListItem(Label(option), option)
  }

  /** The rows the popup builds for `options`, one per saved text, in list order. */
  function Items(options: seq<string>): (r: seq<ListItem>)
    ensures |r| == |options|
    ensures forall k :: 0 <= k < |r| ==> r[k] == ItemFor(options[k])
    decreases |options|
  {
    if options == [] then [] else [ItemFor(options[0])] + Items(options[1..])
  }

  /** Appending a text to the list appends its row to the rows. */
  lemma ItemsAppend(s: seq<string>, x: string)
    ensures Items(s + [x]) == Items(s) + [ListItem(Label(x), x)]
  {
    var l, r := Items(s + [x]), Items(s) + [ListItem(Label(x), x)];
    forall k | 0 <= k < |l| ensures l[k] == r[k] {
      if k < |s| {
        assert (s + [x])[k] == s[k];
      }
    }
  }

  /** Deleting row `i` from the rows gives the rows of the list with element `i` deleted. */
  lemma ItemsRemoveAt(options: seq<string>, i: nat)
    requires i < |options|
    ensures Items(SnippetStore.RemoveAt(options, i)) == SnippetStore.RemoveAt(Items(options), i)
  {
    var rest := SnippetStore.RemoveAt(options, i);
    var l, r := Items(rest), SnippetStore.RemoveAt(Items(options), i);
    assert |l| == |rest| == |r|;
    forall k | 0 <= k < |l| ensures l[k] == r[k] {
      ItemsRemoveAtRow(options, i, k);
    }
    assert l == r;
  }

  lemma ItemsRemoveAtRow(options: seq<string>, i: nat, k: nat)
    requires i < |options| && k < |options| - 1
    ensures Items(SnippetStore.RemoveAt(options, i))[k] == SnippetStore.RemoveAt(Items(options), i)[k]
  {
    var k' := if k < i then k else k + 1;
    assert SnippetStore.RemoveAt(options, i)[k] == options[k'];
    assert SnippetStore.RemoveAt(Items(options), i)[k] == Items(options)[k'];
  }

}
