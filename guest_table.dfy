/**
 * The guest table as a value: a Python dict from email address to guest
 * name. A Python dict remembers the order in which keys were first inserted
 * (overwriting a key keeps its place), and both `json.dumps` and iteration
 * over `items()` follow that order, so the table keeps it explicitly.
 */
module GuestTable {

  /** `order` lists the emails in insertion order; `names` maps email to name. */
  datatype Table = Table(order: seq<string>, names: map<string, string>)

  ghost predicate Distinct(s: seq<string>) {
    forall i, j :: 0 <= i < j < |s| ==> s[i] != s[j]
  }

  /** Every key appears exactly once in `order`, and `order` holds only keys. */
  ghost predicate Valid(t: Table) {
    Distinct(t.order) && (forall e :: e in t.order <==> e in t.names)
  }

  const Empty := Table([], map[])

  /** `table[email] = name`: last write wins, a new key goes to the end, an old key keeps its place. */
  function Put(t: Table, email: string, name: string): (r: Table)
    ensures email in r.names && r.names[email] == name
    ensures r.names.Keys == t.names.Keys + {email}
    ensures forall e :: e in t.names && e != email ==> r.names[e] == t.names[e]
    ensures email in t.names ==> r.order == t.order
    ensures email !in t.names ==> r.order == t.order + [email]
    ensures Valid(t) ==> Valid(r)
  {
    Table(if email in t.names then t.order else t.order + [email], t.names[email := name])
  }

  /** Repeating the same put changes nothing more. */
  lemma PutIdempotent(t: Table, email: string, name: string)
    ensures Put(Put(t, email, name), email, name) == Put(t, email, name)
  {
  }

  /** A table that has had a put is never empty, so no sequence of puts empties it. */
  lemma PutNonEmpty(t: Table, email: string, name: string)
    ensures Put(t, email, name).names != map[]
  {
  }

  /** A later put to the same email overwrites the earlier name and keeps the first position. */
  lemma PutLastWriteWins(t: Table, email: string, first: string, second: string)
    ensures Put(Put(t, email, first), email, second) == Put(t, email, second)
  {
  }

  /**
   * Puts to two different new emails agree on the names whichever comes
   * first, but not on the order, which is what iteration and json.dumps follow.
   */
  lemma PutOrderMatters(t: Table, a: string, b: string, na: string, nb: string)
    requires a != b && a !in t.names && b !in t.names
    ensures Put(Put(t, a, na), b, nb).names == Put(Put(t, b, nb), a, na).names
    ensures Put(Put(t, a, na), b, nb).order != Put(Put(t, b, nb), a, na).order
  {
    var ab := Put(Put(t, a, na), b, nb).order;
    var ba := Put(Put(t, b, nb), a, na).order;
    assert ab[|t.order|] == a && ba[|t.order|] == b;
  }

  lemma {:induction false} DistinctCard(s: seq<string>)
    requires Distinct(s)
    ensures |set e | e in s| == |s|
  {
    if s != [] {
      var init := s[..|s| - 1];
      assert Distinct(init);
      DistinctCard(init);
      assert (set e | e in s) == (set e | e in init) + {s[|s| - 1]};
      assert s[|s| - 1] !in (set e | e in init);
    }
  }

  /** `len(table)` equals the number of entries iteration visits. */
  lemma SizeIsLength(t: Table)
    requires Valid(t)
    ensures |t.names| == |t.order|
  {
    DistinctCard(t.order);
    assert t.names.Keys == set e | e in t.order;
  }

  /** An entry of `order` names a key of `names`. */
  lemma OrderInNames(t: Table, i: nat)
    requires Valid(t) && i < |t.order|
    ensures t.order[i] in t.names
  {
  }

  /** The table is empty exactly when there is nothing to iterate over. */
  lemma EmptyIffNoOrder(t: Table)
    requires Valid(t)
    ensures t.names == map[] <==> t.order == []
  {
    if t.order != [] {
      assert t.order[0] in t.names;
    }
  }

  function Quote(s: string): string {
    "\"" + s + "\""
  }

  /** The `"email": "name"` pairs of the keys in `keys`, joined by ", ". */
  function Pairs(keys: seq<string>, names: map<string, string>): (r: string)
    requires forall i :: 0 <= i < |keys| ==> keys[i] in names
    ensures keys == [] <==> r == ""
    ensures keys != [] ==> |r| >= |Quote(keys[0])| + 2 && r[..|Quote(keys[0])| + 2] == Quote(keys[0]) + ": "
  {
    if keys == [] then ""
    else if |keys| == 1 then Quote(keys[0]) + ": " + Quote(names[keys[0]])
    else Quote(keys[0]) + ": " + Quote(names[keys[0]]) + ", " + Pairs(keys[1..], names)
  }

  /** `json.dumps(table)` with its default separators (escaping of special characters not modelled). */
  function Dumps(t: Table): (s: string)
    requires Valid(t)
    ensures |s| >= 2 && s[0] == '{' && s[|s| - 1] == '}'
    ensures t.order == [] ==> s == "{}"
    ensures t.order != [] ==> |s| >= |t.order[0]| + 5 && s[1..|t.order[0]| + 5] == Quote(t.order[0]) + ": "
  {
    "{" + Pairs(t.order, t.names) + "}"
  }
}
