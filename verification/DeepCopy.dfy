/** The generated deep copies, on the heap. A struct is a value that holds references: to
    arrays for its slices and to a map object for its map, each of which may be nil. The
    assignment of a struct copies the references, and the rest of a copy replaces them. */
module DeepCopy {
  import opened Types

  class StringMap {
    var entries: map<string, string>

    constructor ()
      ensures entries == map[]
    {
      entries := map[];
    }
  }

  datatype TokenStatus = TokenStatus(phase: Phase, conditions: array?<Condition>, reason: Option<Reason>,
      data: StringMap?)

  datatype TokenSpec = TokenSpec(permissions: array?<Permission>, secretName: string, configName: string)

  datatype Token = Token(name: Name, uid: Uid, spec: TokenSpec, status: TokenStatus)

  datatype TokenList = TokenList(resourceVersion: string, items: array?<Token>)

  /******* What a struct means, and what it reaches *******/

  function Elements<T>(a: array?<T>): Option<seq<T>>
    reads a
  {
    if a == null then None else Some(a[..])
  }

  function Entries(m: StringMap?): Option<map<string, string>>
    reads m
  {
    if m == null then None else Some(m.entries)
  }

  datatype TokenValue = TokenValue(
    name: Name, uid: Uid,
    permissions: Option<seq<Permission>>, secretName: string, configName: string,
    phase: Phase, conditions: Option<seq<Condition>>, reason: Option<Reason>, data: Option<map<string, string>>)

  ghost function NonNull(o: object?): set<object> {
    if o == null then {} else {o}
  }

  ghost function Reach(t: Token): set<object> {
    NonNull(t.spec.permissions) + NonNull(t.status.conditions) + NonNull(t.status.data)
  }

  function ValueOf(t: Token): TokenValue
    reads Reach(t)
  {
    TokenValue(t.name, t.uid, Elements(t.spec.permissions), t.spec.secretName, t.spec.configName,
               t.status.phase, Elements(t.status.conditions), t.status.reason, Entries(t.status.data))
  }

  ghost function ReachOfAll(tokens: seq<Token>): set<object> {
    set i, o | 0 <= i < |tokens| && o in Reach(tokens[i]) :: o
  }

  ghost function ReachOfList(list: TokenList): set<object>
    reads list.items
  {
    if list.items == null then {} else {list.items} + ReachOfAll(list.items[..])
  }

  ghost function ItemValues(tokens: seq<Token>): seq<TokenValue>
    reads ReachOfAll(tokens)
  {
    seq(|tokens|, i requires 0 <= i < |tokens| reads ReachOfAll(tokens) => ValueOf(tokens[i]))
  }

  /** The list and, nil or not, its items all the way down. */
  ghost function ListValue(list: TokenList): (string, Option<seq<TokenValue>>)
    reads list.items, ReachOfList(list)
  {
    (list.resourceVersion, if list.items == null then None else Some(ItemValues(list.items[..])))
  }

  /** No two tokens share an array or a map. */
  ghost predicate Separate(tokens: seq<Token>) {
    forall i, j | 0 <= i < j < |tokens| :: Reach(tokens[i]) !! Reach(tokens[j])
  }

  /******* The copies *******/

  method CopyConditions(source: array<Condition>) returns (target: array<Condition>)
    ensures fresh(target) && target[..] == source[..]
  {
    target := new Condition[source.Length];
    for i := 0 to source.Length
      invariant target[..i] == source[..i]
    {
      target[i] := source[i];
    }
  }

  method CopyPermissions(source: array<Permission>) returns (target: array<Permission>)
    ensures fresh(target) && target[..] == source[..]
  {
    target := new Permission[source.Length];
    forall i | 0 <= i < source.Length {
      target[i] := source[i];
    }
  }

  /** The order in which the entries are visited does not matter. */
  method CopyEntries(source: StringMap) returns (target: StringMap)
    ensures fresh(target) && target.entries == source.entries
  {
    target := new StringMap();
    var keys := source.entries.Keys;
    while keys != {}
      invariant keys <= source.entries.Keys
      invariant target.entries == map key | key in source.entries.Keys - keys :: source.entries[key]
      decreases |keys|
    {
      var key :| key in keys;
      target.entries := target.entries[key := source.entries[key]];
      keys := keys - {key};
    }
    assert target.entries.Keys == source.entries.Keys;
  }

  method CopyStatus(source: TokenStatus) returns (target: TokenStatus)
    ensures target == source.(conditions := target.conditions, data := target.data)
    ensures Elements(target.conditions) == Elements(source.conditions) && Entries(target.data) == Entries(source.data)
    ensures target.conditions != null ==> fresh(target.conditions)
    ensures target.data != null ==> fresh(target.data)
  {
    target := source;
    if source.conditions != null {
      var conditions := CopyConditions(source.conditions);
      target := target.(conditions := conditions);
    }
    if source.data != null {
      var data := CopyEntries(source.data);
      target := target.(data := data);
    }
  }

  method CopySpec(source: TokenSpec) returns (target: TokenSpec)
    ensures target == source.(permissions := target.permissions)
    ensures Elements(target.permissions) == Elements(source.permissions)
    ensures target.permissions != null ==> fresh(target.permissions)
  {
    target := source;
    if source.permissions != null {
      var permissions := CopyPermissions(source.permissions);
      target := target.(permissions := permissions);
    }
  }

  /** The copy has the same value and reaches nothing that was there before. */
  method CopyToken(source: Token) returns (target: Token)
    ensures ValueOf(target) == ValueOf(source) == old(ValueOf(source))
    ensures fresh(Reach(target))
  {
    target := source;
    var spec := CopySpec(source.spec);
    target := target.(spec := spec);
    var status := CopyStatus(source.status);
    target := target.(status := status);
  }

  lemma SeparateAppend(tokens: seq<Token>, taken: set<object>, t: Token)
    requires Separate(tokens) && Reach(t) !! taken
    requires forall i | 0 <= i < |tokens| :: Reach(tokens[i]) <= taken
    ensures Separate(tokens + [t])
  {
  }

  method CopyItems(source: array<Token>) returns (target: array<Token>)
    ensures fresh(target) && fresh(ReachOfAll(target[..])) && Separate(target[..])
    ensures ItemValues(target[..]) == ItemValues(source[..])
  {
    ghost var values := ItemValues(source[..]);
    target := new Token[source.Length];
    ghost var copies: seq<Token>, taken: set<object> := [], {};
    for i := 0 to source.Length
      invariant target[..i] == copies && |copies| == i
      invariant ItemValues(source[..]) == values
      invariant forall j | 0 <= j < i :: ValueOf(copies[j]) == values[j] && Reach(copies[j]) <= taken
      invariant Separate(copies) && fresh(taken) && target !in taken
    {
      var item := CopyToken(source[i]);
      target[i] := item;
      SeparateAppend(copies, taken, item);
      copies, taken := copies + [item], taken + Reach(item);
    }
    assert target[..] == copies;
  }

  /** A deep copy of a list of any length has the same value, nil staying nil, shares no
      array or map with the original, and no two of its items share one even where those of
      the original do. */
  method DeepCopyList(source: Option<TokenList>) returns (target: Option<TokenList>)
    ensures source.None? <==> target.None?
    ensures source.Some? ==>
      && ListValue(target.value) == ListValue(source.value)
      && fresh(ReachOfList(target.value))
      && (target.value.items != null ==> Separate(target.value.items[..]))
  {
    target := source;
    if source.Some? && source.value.items != null {
      var items := CopyItems(source.value.items);
      target := Some(source.value.(items := items));
    }
  }

  /** What the reconcilers do with a copy from the client's cache: refresh a condition in
      place. The original keeps its value. */
  method TouchCopy(source: Token, reason: Reason, now: nat) returns (copy: Token)
    ensures ValueOf(source) == old(ValueOf(source))
    ensures copy.status.conditions == null <==> source.status.conditions == null
    ensures source.status.conditions != null ==>
      ValueOf(copy) == old(ValueOf(source)).(conditions := Some(Touch(old(source.status.conditions[..]), reason, now)))
  {
    copy := CopyToken(source);
    var conditions := copy.status.conditions;
    if conditions != null {
      for i := 0 to conditions.Length
        invariant conditions[..] == old(source.status.conditions[..])
        invariant forall j | 0 <= j < i :: conditions[j].reason != reason
      {
        if conditions[i].reason == reason {
          assert FirstReason(conditions[..], reason) == i;
          conditions[i] := conditions[i].(transition := now);
          break;
        }
      }
    }
  }
}
