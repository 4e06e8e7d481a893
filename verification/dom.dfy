/**
 * The host page as the widget sees it. `document.querySelector(s)` is the
 * first element in document order that matches the selector `s`, or null;
 * the model takes those answers as a fixed map from selector text to element.
 * None of the selectors the widget uses depends on a control's value, so
 * writing values never changes an answer.
 */
module Dom {
  import opened Wrappers

  /** An element of the page, by identity. */
  type Element = nat

  /** One assignment `element.value = value`. */
  datatype Write = Write(element: Element, value: string)

  class Document {
    /** `querySelector`'s answer for each selector that matches something. */
    const query: map<string, Element>
    /** The current `value` of each form control. */
    var values: map<Element, string>

    constructor(query: map<string, Element>, values: map<Element, string>)
      ensures this.query == query && this.values == values
    {
      this.query := query;
      this.values := values;
    }
  }

  /** Trying selectors in list order, the element of the first one that matches. */
  function FirstMatch(query: map<string, Element>, selectors: seq<string>): (r: Option<Element>)
    ensures r.None? <==> forall i :: 0 <= i < |selectors| ==> selectors[i] !in query
    ensures r.Some? ==>
      exists i :: 0 <= i < |selectors| && selectors[i] in query && r.value == query[selectors[i]] &&
        forall j :: 0 <= j < i ==> selectors[j] !in query
  {
    if selectors == [] then None
    else if selectors[0] in query then Some(query[selectors[0]])
    else
      var r := FirstMatch(query, selectors[1..]);
      assert forall i :: 1 <= i < |selectors| ==> selectors[i] == selectors[1..][i - 1];
      r
  }

  /** When selector `k` is the first that matches, its element is the answer. */
  lemma FirstMatchAt(query: map<string, Element>, selectors: seq<string>, k: nat)
    requires k < |selectors| && selectors[k] in query
    requires forall j :: 0 <= j < k ==> selectors[j] !in query
    ensures FirstMatch(query, selectors) == Some(query[selectors[k]])
  {
    var r := FirstMatch(query, selectors);
    var i :| 0 <= i < |selectors| && selectors[i] in query && r.value == query[selectors[i]] &&
      forall j :: 0 <= j < i ==> selectors[j] !in query;
    assert i == k;
  }

  /** `ws[k]` is the last write to its element. */
  predicate LastWriteAt(ws: seq<Write>, k: nat)
    requires k < |ws|
  {
    forall j :: k < j < |ws| ==> ws[j].element != ws[k].element
  }

  /** The values after performing the writes in order. */
  function Apply(values: map<Element, string>, ws: seq<Write>): (r: map<Element, string>)
    ensures values.Keys <= r.Keys
  {
    if ws == [] then values
    else
      var last := ws[|ws| - 1];
      Apply(values, ws[..|ws| - 1])[last.element := last.value]
  }

  /** One more write updates one element. */
  lemma ApplyStep(values: map<Element, string>, ws: seq<Write>, w: Write)
    ensures Apply(values, ws + [w]) == Apply(values, ws)[w.element := w.value]
  {
    assert (ws + [w])[..|ws|] == ws;
  }

  /** The last write to an element decides its value. */
  lemma {:induction false} ApplyLastWins(values: map<Element, string>, ws: seq<Write>, k: nat)
    requires k < |ws| && LastWriteAt(ws, k)
    ensures ws[k].element in Apply(values, ws) && Apply(values, ws)[ws[k].element] == ws[k].value
  {
    if k < |ws| - 1 {
      var init := ws[..|ws| - 1];
      assert LastWriteAt(init, k) by {
        forall j | k < j < |init| ensures init[j].element != init[k].element {
          assert init[j] == ws[j] && init[k] == ws[k];
        }
      }
      ApplyLastWins(values, init, k);
    }
  }

  /** An element no write touches keeps its value, and is present only if it was. */
  lemma {:induction false} ApplyUntouched(values: map<Element, string>, ws: seq<Write>, e: Element)
    requires forall k :: 0 <= k < |ws| ==> ws[k].element != e
    ensures e in Apply(values, ws) <==> e in values
    ensures e in values ==> Apply(values, ws)[e] == values[e]
  {
    if ws != [] {
      var init := ws[..|ws| - 1];
      assert forall k :: 0 <= k < |init| ==> init[k] == ws[k];
      ApplyUntouched(values, init, e);
    }
  }

  /** Performing the same writes twice leaves what performing them once left. */
  lemma ApplyTwice(values: map<Element, string>, ws: seq<Write>)
    ensures Apply(Apply(values, ws), ws) == Apply(values, ws)
  {
    var once := Apply(values, ws);
    var twice := Apply(once, ws);
    forall e
      ensures e in twice <==> e in once
      ensures e in once ==> twice[e] == once[e]
    {
      if k :| 0 <= k < |ws| && ws[k].element == e {
        var last := LastWriteExists(ws, k);
        ApplyLastWins(values, ws, last);
        ApplyLastWins(once, ws, last);
      } else {
        ApplyUntouched(once, ws, e);
      }
    }
  }

  /** Some write to the element of `ws[k]` is the last one. */
  lemma {:induction false} LastWriteExists(ws: seq<Write>, k: nat) returns (last: nat)
    requires k < |ws|
    ensures k <= last < |ws| && ws[last].element == ws[k].element && LastWriteAt(ws, last)
    decreases |ws| - k
  {
    if j :| k < j < |ws| && ws[j].element == ws[k].element {
      last := LastWriteExists(ws, j);
    } else {
      last := k;
    }
  }
}
