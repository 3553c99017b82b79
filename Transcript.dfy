/** What the transcript's basic updates do (src/components/ChatWindow.tsx):
    drawing a key and appending a bubble, opening a tool card, and resolving
    one; each keeps the invariant `Valid`. */
module Transcript {
  import opened JsText
  import opened JsValue
  import opened Framing
  import opened Reducer

  /** Keys in list order are strictly increasing, hence pairwise distinct. */
  lemma KeysDistinct(s: State, i: int, j: int)
    requires Valid(s) && 0 <= i < |s.bubbles| && 0 <= j < |s.bubbles| && i != j
    ensures s.bubbles[i].key != s.bubbles[j].key
  {
    if i < j { assert s.bubbles[i].key < s.bubbles[j].key; } else { assert s.bubbles[j].key < s.bubbles[i].key; }
  }

  lemma GrowsRefl(s: State)
    ensures Grows(s, s)
  {
  }

  lemma GrowsTrans(a: State, b: State, c: State)
    requires Grows(a, b) && Grows(b, c)
    ensures Grows(a, c)
  {
  }

  /** `nextKey` hands out the counter and advances it, and the bubble goes at
      the end. */
  lemma AppendFacts(s: State, role: Role, body: Body)
    requires Valid(s)
    ensures var t := Append(s, role, body);
      && t.counter == s.counter + 1
      && t.bubbles == s.bubbles + [Bubble(s.counter, role, body)]
      && Grows(s, t)
      && Valid(t)
  {
    var t := Append(s, role, body);
    assert forall i :: 0 <= i < |s.bubbles| ==> t.bubbles[i] == s.bubbles[i];
  }

  /** A new card: one more AI bubble holding exactly one item, and the map
      entry for the call then points at that bubble. */
  lemma OpenCardFacts(s: State, key: ToolKey, name: Value, args: Value, status: Value)
    requires Valid(s) && KeyFits(key, s.counter)
    ensures var t := OpenCard(s, key, name, args, status);
      var item := Item(Title(name), status, ArgsDescription(args));
      && Valid(t) && Grows(s, t)
      && t.bubbles == s.bubbles + [Bubble(s.counter, Ai, ToolChain([item]))]
      && t.counter == s.counter + 1 && t.aiContent == s.aiContent
      && t.chains == s.chains[key := Chain(s.counter, [item])]
  {
    OpenCardValid(s, key, [Item(Title(name), status, ArgsDescription(args))]);
  }

  /** The card a result updates: the known card for the call, or else a new
      empty one. */
  function Target(s: State, key: ToolKey): Chain {
    if key in s.chains then s.chains[key] else Chain(s.counter, [])
  }

  /** A result: a card is synthesized, in one new AI bubble, exactly when the
      call is unknown; otherwise the bubble count stays, and only the card's
      own bubble is replaced; no other card changes. */
  lemma ResolveBubbles(s: State, key: ToolKey, name: Value, status: Value, output: Value)
    requires Valid(s)
    ensures var t := Resolve(s, key, name, status, output);
      var known := key in s.chains;
      var bk := Target(s, key).bubbleKey;
      && key in t.chains && t.chains[key].bubbleKey == bk
      && t.counter == s.counter + (if known then 0 else 1)
      && (!known ==> t.bubbles == s.bubbles + [Bubble(s.counter, Ai, ToolChain(t.chains[key].items))])
      && (known ==>
            && |t.bubbles| == |s.bubbles|
            && forall i :: 0 <= i < |s.bubbles| ==>
                 t.bubbles[i] == if s.bubbles[i].key == bk then s.bubbles[i].(body := ToolChain(t.chains[key].items)) else s.bubbles[i])
      && t.chains.Keys == s.chains.Keys + {key}
      && (forall u :: u in s.chains && u != key ==> t.chains[u] == s.chains[u])
      && t.aiContent == s.aiContent
  {
    if key in s.chains {
      ResolveKnown(s, key, name, status, output);
    } else {
      ResolveUnknown(s, key, name, status, output);
    }
  }

  lemma ResolveKnown(s: State, key: ToolKey, name: Value, status: Value, output: Value)
    requires key in s.chains
    ensures var t := Resolve(s, key, name, status, output);
      var bk := s.chains[key].bubbleKey;
      && key in t.chains && t.chains[key].bubbleKey == bk
      && t.counter == s.counter
      && |t.bubbles| == |s.bubbles|
      && (forall i :: 0 <= i < |s.bubbles| ==>
            t.bubbles[i] == if s.bubbles[i].key == bk then s.bubbles[i].(body := ToolChain(t.chains[key].items)) else s.bubbles[i])
      && t.chains.Keys == s.chains.Keys
      && (forall u :: u in s.chains && u != key ==> t.chains[u] == s.chains[u])
      && t.aiContent == s.aiContent
  {
    var items := Settle(s.chains[key].items, name, status, output);
    assert Ensure(s, key) == s;
    SetCardFacts(s, key, items);
  }

  lemma ResolveUnknown(s: State, key: ToolKey, name: Value, status: Value, output: Value)
    requires Valid(s) && key !in s.chains
    ensures var t := Resolve(s, key, name, status, output);
      && key in t.chains && t.chains[key].bubbleKey == s.counter
      && t.counter == s.counter + 1
      && t.bubbles == s.bubbles + [Bubble(s.counter, Ai, ToolChain(t.chains[key].items))]
      && t.chains.Keys == s.chains.Keys + {key}
      && (forall u :: u in s.chains ==> t.chains[u] == s.chains[u])
      && t.aiContent == s.aiContent
  {
    assert Ensure(s, key).chains[key].items == [];
    UnknownCard(s, key, Settle([], name, status, output));
  }

  /** A card synthesized for an unknown call and given `items` is one more
      bubble at the end, showing them. */
  lemma UnknownCard(s: State, key: ToolKey, items: seq<Item>)
    requires Valid(s) && key !in s.chains
    ensures var t := SetCard(Ensure(s, key), key, items);
      && key in t.chains && t.chains[key] == Chain(s.counter, items)
      && t.counter == s.counter + 1
      && t.bubbles == s.bubbles + [Bubble(s.counter, Ai, ToolChain(items))]
      && t.chains.Keys == s.chains.Keys + {key}
      && (forall u :: u in s.chains ==> t.chains[u] == s.chains[u])
      && t.aiContent == s.aiContent
  {
    var s1 := Ensure(s, key);
    assert s1.chains[key] == Chain(s.counter, []);
    assert s1.bubbles == s.bubbles + [Bubble(s.counter, Ai, ToolChain([]))];
    SetCardFacts(s1, key, items);
    var t := SetCard(s1, key, items);
    forall i | 0 <= i < |s.bubbles| ensures t.bubbles[i] == s.bubbles[i] {
      assert s.bubbles[i].key < s.counter;
    }
    assert t.bubbles == s.bubbles + [Bubble(s.counter, Ai, ToolChain(items))];
  }

  /** Setting a known card's items replaces exactly its bubble's body. */
  lemma SetCardFacts(s: State, key: ToolKey, items: seq<Item>)
    requires key in s.chains
    ensures var t := SetCard(s, key, items);
      var bk := s.chains[key].bubbleKey;
      && key in t.chains && t.chains[key] == Chain(bk, items)
      && t.counter == s.counter
      && |t.bubbles| == |s.bubbles|
      && (forall i :: 0 <= i < |s.bubbles| ==>
            t.bubbles[i] == if s.bubbles[i].key == bk then s.bubbles[i].(body := ToolChain(items)) else s.bubbles[i])
      && t.chains.Keys == s.chains.Keys
      && (forall u :: u in s.chains && u != key ==> t.chains[u] == s.chains[u])
      && t.aiContent == s.aiContent
  {
  }

  /** A result keeps the card's items but the last, which takes the outcome
      (`success` exactly when the status, lower-cased, is "success", absent
      meaning "success") and the output; an empty card first gets a pending
      placeholder, so the item count never decreases. */
  lemma ResolveItems(s: State, key: ToolKey, name: Value, status: Value, output: Value)
    ensures var t := Resolve(s, key, name, status, output);
      var before := Target(s, key).items;
      && key in t.chains
      && var after := t.chains[key].items;
      && |after| == (if before == [] then 1 else |before|)
      && after[..|after| - 1] == before[..|after| - 1]
      && Last(after).status == (if Succeeded(status) then Str("success") else Str("error"))
      && Last(after).description == Describe(output)
      && Last(after).title == (if before == [] then Placeholder(name).title else Last(before).title)
  {
    var s1 := Ensure(s, key);
    assert s1.chains[key].items == Target(s, key).items;
    SettleItems(Target(s, key).items, name, status, output);
  }

  lemma SettleItems(before: seq<Item>, name: Value, status: Value, output: Value)
    ensures var after := Settle(before, name, status, output);
      && |after| == (if before == [] then 1 else |before|)
      && after[..|after| - 1] == before[..|after| - 1]
      && Last(after).status == (if Succeeded(status) then Str("success") else Str("error"))
      && Last(after).description == Describe(output)
      && Last(after).title == (if before == [] then Placeholder(name).title else Last(before).title)
  {
  }

  /** Resolving keeps the invariant and the bubble order. */
  lemma ResolveValid(s: State, key: ToolKey, name: Value, status: Value, output: Value)
    requires Valid(s) && KeyFits(key, s.counter)
    ensures Valid(Resolve(s, key, name, status, output)) && Grows(s, Resolve(s, key, name, status, output))
  {
    var s1 := Ensure(s, key);
    if key !in s.chains {
      OpenCardValid(s, key, []);
    } else {
      GrowsRefl(s);
    }
    var done := Settle(s1.chains[key].items, name, status, output);
    SetCardValid(s1, key, done);
    GrowsTrans(s, s1, SetCard(s1, key, done));
  }

  /** A card made with the given items, in a new bubble, keeps the invariant. */
  lemma OpenCardValid(s: State, key: ToolKey, items: seq<Item>)
    requires Valid(s) && KeyFits(key, s.counter)
    ensures var t := Append(s.(chains := s.chains[key := Chain(s.counter, items)]), Ai, ToolChain(items));
      Valid(t) && Grows(s, t)
  {
    var t := Append(s.(chains := s.chains[key := Chain(s.counter, items)]), Ai, ToolChain(items));
    assert forall i :: 0 <= i < |s.bubbles| ==> t.bubbles[i] == s.bubbles[i];
    assert CardsShown(t) by {
      forall u, i | u in t.chains && 0 <= i < |t.bubbles| && t.bubbles[i].key == t.chains[u].bubbleKey
        ensures t.bubbles[i].body == ToolChain(t.chains[u].items)
      {
        if u == key {
          assert i == |s.bubbles|;
        } else {
          assert t.chains[u] == s.chains[u];
        }
      }
    }
  }

  /** Replacing a known card's items and its bubble keeps the invariant. */
  lemma SetCardValid(s: State, key: ToolKey, items: seq<Item>)
    requires Valid(s) && key in s.chains
    ensures Valid(SetCard(s, key, items)) && Grows(s, SetCard(s, key, items))
  {
    var t := SetCard(s, key, items);
    var bk := s.chains[key].bubbleKey;
    assert forall i :: 0 <= i < |s.bubbles| ==> t.bubbles[i].key == s.bubbles[i].key && t.bubbles[i].role == s.bubbles[i].role;
    assert CardsShown(t) by {
      forall u, i | u in t.chains && 0 <= i < |t.bubbles| && t.bubbles[i].key == t.chains[u].bubbleKey
        ensures t.bubbles[i].body == ToolChain(t.chains[u].items)
      {
        if u != key {
          assert s.chains[u].bubbleKey != bk;
          assert t.bubbles[i] == s.bubbles[i];
        }
      }
    }
  }
}
