/** The server-side tables of InfluxDB. Rows are numbered in creation order and a
    number is never given out twice; a removed row stays behind as a record of who
    removed it, which only the proofs look at. */
module Tables {
  import opened Types

  datatype Remover = Outsider | Operator

  datatype Payload =
    | OrganizationData
    | AuthorizationData(token: Option<string>, grants: seq<Grant>)
    | BucketData(everySeconds: int, description: string)

  /** `parent` is the organization id (0 for organizations themselves), `title` the
      name or description, `maker` the owner when the operator created the row. */
  datatype Row = Row(parent: nat, title: Option<string>, maker: Option<Owner>, payload: Payload)

  datatype Table = Table(rows: seq<Row>, gone: map<nat, Remover>) {

    predicate Live(i: nat) {
      i < |rows| && i !in gone
    }

    predicate Hit(i: nat, parent: nat, title: string) {
      Live(i) && rows[i].parent == parent && rows[i].title == Some(title)
    }

    /** The first live row with this parent and title at or after `from`. */
    function FirstFrom(parent: nat, title: string, from: nat): (r: Option<nat>)
      ensures r.Some? ==> from <= r.value && Hit(r.value, parent, title)
      ensures r.Some? ==> forall i: nat | from <= i < r.value :: !Hit(i, parent, title)
      ensures r.None? ==> forall i: nat | from <= i :: !Hit(i, parent, title)
      decreases |rows| - from
    {
      if from >= |rows| then None
      else if Hit(from, parent, title) then Some(from)
      else FirstFrom(parent, title, from + 1)
    }

    function First(parent: nat, title: string): (r: Option<nat>)
      ensures r.Some? ==> Hit(r.value, parent, title)
      ensures r.Some? ==> forall i: nat | i < r.value :: !Hit(i, parent, title)
      ensures r.None? ==> forall i: nat :: !Hit(i, parent, title)
    {
      FirstFrom(parent, title, 0)
    }

    function CountFrom(parent: nat, title: string, from: nat): nat
      decreases |rows| - from
    {
      if from >= |rows| then 0
      else (if Hit(from, parent, title) then 1 else 0) + CountFrom(parent, title, from + 1)
    }

    /** How many live rows have this parent and title. */
    function Count(parent: nat, title: string): nat {
      CountFrom(parent, title, 0)
    }

    function Insert(row: Row): Table {
      this.(rows := rows + [row])
    }

    function Remove(i: nat, who: Remover): Table {
      this.(gone := gone[i := who])
    }

    lemma {:induction false} CountZero(parent: nat, title: string, from: nat)
      ensures CountFrom(parent, title, from) == 0 <==> FirstFrom(parent, title, from).None?
      decreases |rows| - from
    {
      if from < |rows| {
        CountZero(parent, title, from + 1);
      }
    }

    lemma {:induction false} CountSame(that: Table, parent: nat, title: string, from: nat)
      requires |rows| == |that.rows|
      requires forall i: nat | from <= i < |rows| :: Hit(i, parent, title) == that.Hit(i, parent, title)
      ensures CountFrom(parent, title, from) == that.CountFrom(parent, title, from)
      decreases |rows| - from
    {
      if from < |rows| {
        CountSame(that, parent, title, from + 1);
      }
    }

    /** Removing one matching row lowers the count by exactly one. */
    lemma {:induction false} CountRemove(i: nat, who: Remover, parent: nat, title: string, from: nat)
      requires Hit(i, parent, title)
      ensures Remove(i, who).CountFrom(parent, title, from)
           == CountFrom(parent, title, from) - (if from <= i then 1 else 0)
      decreases |rows| - from
    {
      if from >= |rows| {
      } else if from == i {
        CountSame(Remove(i, who), parent, title, from + 1);
      } else {
        CountRemove(i, who, parent, title, from + 1);
      }
    }

    /** A table that has no hit that this one has not has no higher count. */
    lemma {:induction false} CountNeverRises(that: Table, parent: nat, title: string, from: nat)
      requires |rows| <= |that.rows|
      requires forall i: nat | from <= i && that.Hit(i, parent, title) :: Hit(i, parent, title)
      ensures that.CountFrom(parent, title, from) <= CountFrom(parent, title, from)
      decreases |that.rows| - from
    {
      if from < |that.rows| {
        CountNeverRises(that, parent, title, from + 1);
      }
    }
  }
}
