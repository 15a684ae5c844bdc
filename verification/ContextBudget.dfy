/** Trimming an agent context contract to its budget (enforceContextBudget and renderAgentContextContract). The JSON text
    of a contract and the redaction of secrets are parameters: nothing below depends on what they do. */
module ContextBudget {
  import opened Wrappers

  const AGENT_CONTEXT_VERSION := "1.3"
  const AGENT_CONTEXT_MAX_CHARS: nat := 16_000
  const CONTRACT_JSON_MAX_CHARS: nat := 15_900

  /** The trimmable lists in the order in which they are given up: prior progress, related tickets, recent decisions,
      unresolved questions, verification commands. */
  const FIELDS: nat := 5

  /** A contract: the parts that are always kept, its version, and its five lists of items. */
  datatype Contract<R, I> = Contract(required: R, version: string, lists: seq<seq<I>>)

  predicate HasFields<R, I>(c: Contract<R, I>) { |c.lists| == FIELDS }

  function Total<I>(lists: seq<seq<I>>): nat { if lists == [] then 0 else |lists[0]| + Total(lists[1..]) }

  /** One item fewer: the head of the first list that still has one. */
  function DropOne<I>(lists: seq<seq<I>>): (r: seq<seq<I>>)
    ensures |r| == |lists|
  {
    if lists == [] then []
    else if lists[0] != [] then [lists[0][1..]] + lists[1..]
    else [lists[0]] + DropOne(lists[1..])
  }

  function Drop<I>(lists: seq<seq<I>>, n: nat): (r: seq<seq<I>>)
    ensures |r| == |lists|
  {
    if n == 0 then lists else DropOne(Drop(lists, n - 1))
  }

  predicate AllEmpty<I>(lists: seq<seq<I>>) { forall i | 0 <= i < |lists| :: lists[i] == [] }

  lemma {:induction false} DropOneHitsFirst<I>(lists: seq<seq<I>>, i: nat)
    requires i < |lists| && lists[i] != [] && forall j | 0 <= j < i :: lists[j] == []
    ensures DropOne(lists) == lists[i := lists[i][1..]]
  {
    if i > 0 {
      DropOneHitsFirst(lists[1..], i - 1);
      assert lists[i := lists[i][1..]] == [lists[0]] + lists[1..][i - 1 := lists[i][1..]];
    }
  }

  lemma {:induction false} DropOneCounts<I>(lists: seq<seq<I>>)
    ensures Total(lists) > 0 ==> Total(DropOne(lists)) == Total(lists) - 1
    ensures Total(lists) == 0 <==> AllEmpty(lists)
    ensures AllEmpty(lists) ==> DropOne(lists) == lists
  {
    if lists != [] {
      DropOneCounts(lists[1..]);
      if AllEmpty(lists) { assert AllEmpty(lists[1..]); }
      if AllEmpty(lists[1..]) && lists[0] == [] {
        forall i | 0 <= i < |lists| ensures lists[i] == [] { if i > 0 { assert lists[i] == lists[1..][i - 1]; } }
        assert [lists[0]] + lists[1..] == lists;
      }
      assert DropOne(lists)[1..] == if lists[0] != [] then lists[1..] else DropOne(lists[1..]);
    }
  }

  lemma {:induction false} DropCounts<I>(lists: seq<seq<I>>, n: nat)
    requires n <= Total(lists)
    ensures Total(Drop(lists, n)) == Total(lists) - n
  {
    if n > 0 {
      DropCounts(lists, n - 1);
      DropOneCounts(Drop(lists, n - 1));
    }
  }

  /** Every list keeps a suffix, and one that lost anything comes after lists that lost everything. */
  ghost predicate GivenUpInOrder<I>(lists: seq<seq<I>>, kept: seq<seq<I>>) {
    && |kept| == |lists|
    && (forall i | 0 <= i < |lists| :: |kept[i]| <= |lists[i]| && kept[i] == lists[i][|lists[i]| - |kept[i]|..])
    && (forall i, j | 0 <= i < j < |lists| && |kept[j]| < |lists[j]| :: kept[i] == [])
  }

  lemma {:induction false} FirstNonEmpty<I>(lists: seq<seq<I>>) returns (i: nat)
    requires !AllEmpty(lists)
    ensures i < |lists| && lists[i] != [] && forall j | 0 <= j < i :: lists[j] == []
  {
    if lists[0] != [] {
      i := 0;
    } else {
      var k :| 0 <= k < |lists| && lists[k] != [];
      assert lists[1..][k - 1] != [];
      var rest := FirstNonEmpty(lists[1..]);
      i := rest + 1;
      forall j | 0 <= j < i ensures lists[j] == [] { if j > 0 { assert lists[j] == lists[1..][j - 1]; } }
    }
  }

  lemma OneMoreKeepsOrder<I>(lists: seq<seq<I>>, kept: seq<seq<I>>, i: nat)
    requires GivenUpInOrder(lists, kept) && i < |kept| && kept[i] != [] && forall j | 0 <= j < i :: kept[j] == []
    ensures GivenUpInOrder(lists, kept[i := kept[i][1..]])
  {
    var from := |lists[i]| - |kept[i]|;
    assert kept[i][1..] == lists[i][from..][1..] == lists[i][from + 1..];
    assert forall j | i < j < |lists| && |kept[j]| < |lists[j]| :: kept[i] == [];
  }

  lemma {:induction false} DropKeepsOrder<I>(lists: seq<seq<I>>, n: nat)
    ensures GivenUpInOrder(lists, Drop(lists, n))
  {
    if n > 0 {
      DropKeepsOrder(lists, n - 1);
      var before := Drop(lists, n - 1);
      if AllEmpty(before) {
        DropOneCounts(before);
      } else {
        var i := FirstNonEmpty(before);
        DropOneHitsFirst(before, i);
        OneMoreKeepsOrder(lists, before, i);
      }
    }
  }

  /** `c` after the first `n` items in trimming order are given up. */
  function Trimmed<R, I>(c: Contract<R, I>, n: nat): Contract<R, I> { c.(lists := Drop(c.lists, n)) }

  predicate Fits<R, I>(c: Contract<R, I>, json: Contract<R, I> -> string) { |json(c)| <= CONTRACT_JSON_MAX_CHARS }

  /** `n` is the least number of items to give up so that the text fits. */
  ghost predicate IsLeastTrim<R, I>(c: Contract<R, I>, json: Contract<R, I> -> string, n: nat) {
    n <= Total(c.lists) && Fits(Trimmed(c, n), json) && forall m | 0 <= m < n :: !Fits(Trimmed(c, m), json)
  }

  /** With the earlier lists empty, taking the head of list `i` is the next trimming. */
  lemma NextTrim<R, I>(c: Contract<R, I>, n: nat, i: nat)
    requires i < |c.lists| && n <= Total(c.lists) && Drop(c.lists, n)[i] != []
    requires forall j | 0 <= j < i :: Drop(c.lists, n)[j] == []
    ensures n < Total(c.lists)
    ensures Drop(c.lists, n + 1) == Drop(c.lists, n)[i := Drop(c.lists, n)[i][1..]]
  {
    DropOneHitsFirst(Drop(c.lists, n), i);
    DropCounts(c.lists, n);
    DropOneCounts(Drop(c.lists, n));
  }

  /** Trims the redacted contract. It succeeds with the least trimming that fits: each list keeps a suffix, a list is
      touched only once the earlier ones are empty, and giving back the last item given up would not fit. It fails exactly
      when no trimming fits, having emptied all lists. */
  method EnforceContextBudget<R, I>(
    contract: Contract<R, I>, redact: Contract<R, I> -> Contract<R, I>, json: Contract<R, I> -> string)
    returns (result: Option<Contract<R, I>>, ghost n: nat)
    requires HasFields(redact(contract))
    ensures result.Some? ==> IsLeastTrim(redact(contract), json, n) && result.value == Trimmed(redact(contract), n)
    ensures result.Some? ==> GivenUpInOrder(redact(contract).lists, result.value.lists)
    ensures result.None? <==> forall m | 0 <= m <= Total(redact(contract).lists) :: !Fits(Trimmed(redact(contract), m), json)
    ensures result.None? ==> AllEmpty(Drop(redact(contract).lists, n)) && !Fits(Trimmed(redact(contract), n), json)
  {
    var full := redact(contract);
    var c := full;
    n := 0;
    for field := 0 to FIELDS
      invariant n <= Total(full.lists) && c == Trimmed(full, n)
      invariant forall m | 0 <= m < n :: !Fits(Trimmed(full, m), json)
      invariant !Fits(c, json) ==> forall j | 0 <= j < field :: c.lists[j] == []
    {
      while !Fits(c, json) && |c.lists[field]| > 0
        invariant n <= Total(full.lists) && c == Trimmed(full, n)
        invariant forall m | 0 <= m < n :: !Fits(Trimmed(full, m), json)
        invariant !Fits(c, json) ==> forall j | 0 <= j < field :: c.lists[j] == []
        decreases |c.lists[field]|
      {
        NextTrim(full, n, field);
        c := c.(lists := c.lists[field := c.lists[field][1..]]);
        n := n + 1;
      }
    }
    DropKeepsOrder(full.lists, n);
    if Fits(c, json) {
      result := Some(c);
    } else {
      DropCounts(full.lists, n);
      DropOneCounts(c.lists);
      result := None;
    }
  }

  // ---------------------------------------------------------------- rendering

  function Header(version: string): string {
    "AWB Agent Context Contract v" + version + " (provider-neutral, redacted):"
  }

  function Rendered<R, I>(c: Contract<R, I>, json: Contract<R, I> -> string): string {
    Header(c.version) + "\n" + json(c)
  }

  method RenderAgentContextContract<R, I>(c: Contract<R, I>, json: Contract<R, I> -> string)
    returns (result: Option<string>)
    ensures result == if |Rendered(c, json)| <= AGENT_CONTEXT_MAX_CHARS then Some(Rendered(c, json)) else None
  {
    var rendered := Rendered(c, json);
    result := if |rendered| > AGENT_CONTEXT_MAX_CHARS then None else Some(rendered);
  }

  /** The render check can never fire on a contract that went through the budget, and this is so exactly for versions of
      at most 41 characters: the two limits leave room for the header. */
  lemma BudgetedContractsRender<R, I>(required: R, version: string)
    ensures (forall c: Contract<R, I>, json | c.version == version && Fits(c, json) ::
               |Rendered(c, json)| <= AGENT_CONTEXT_MAX_CHARS)
            <==> |version| <= 41
    ensures |AGENT_CONTEXT_VERSION| <= 41
  {
    assert |Header(version)| == 58 + |version|;
    if |version| > 41 {
      var text := seq(CONTRACT_JSON_MAX_CHARS, i => 'x');
      var c: Contract<R, I> := Contract(required, version, []);
      var json: Contract<R, I> -> string := d => text;
      assert Fits(c, json) && |Rendered(c, json)| > AGENT_CONTEXT_MAX_CHARS;
    }
  }

  /** Over both functions: whatever is trimmed successfully also renders. */
  method BuildAndRender<R, I>(
    contract: Contract<R, I>, redact: Contract<R, I> -> Contract<R, I>, json: Contract<R, I> -> string)
    returns (built: Option<Contract<R, I>>, text: Option<string>)
    requires HasFields(redact(contract)) && redact(contract).version == AGENT_CONTEXT_VERSION
    ensures built.Some? <==> text.Some?
    ensures built.None? <==> forall m | 0 <= m <= Total(redact(contract).lists) :: !Fits(Trimmed(redact(contract), m), json)
    ensures text.Some? ==>
              && |text.value| <= 15_962
              && text.value == "AWB Agent Context Contract v" + "1.3" + " (provider-neutral, redacted):" + "\n"
                               + json(built.value)
  {
    ghost var n;
    built, n := EnforceContextBudget(contract, redact, json);
    text := None;
    if built.Some? {
      text := RenderAgentContextContract(built.value, json);
      BudgetedContractsRender<R, I>(built.value.required, AGENT_CONTEXT_VERSION);
    }
  }
}
