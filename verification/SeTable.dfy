/** The shared table of one Service Engine as DataScripts see it. Three facts of
    the platform are taken as given: an insert never overwrites a present key, a
    lookup does not extend an entry, and an entry is gone once its lifetime has
    passed. A table value here holds the live entries only. */
module SeTable {
  import opened Text

  datatype Entry = Entry(value: string, expires: nat)

  type Table = map<string, Entry>

  function Lookup(t: Table, k: string): Option<string> {
    if k in t then Some(t[k].value) else None
  }

  function Remove(t: Table, k: string): Table { t - {k} }

  function Insert(t: Table, now: nat, k: string, v: string, ttl: nat): Table {
    if k in t then t else t[k := Entry(v, now + ttl)]
  }

  /** Overwriting an entry takes a remove first. */
  function Put(t: Table, now: nat, k: string, v: string, ttl: nat): (r: Table)
    ensures r == t[k := Entry(v, now + ttl)]
  {
    Insert(Remove(t, k), now, k, v, ttl)
  }

  function Expire(t: Table, now: nat): Table {
    map k | k in t && now < t[k].expires :: t[k]
  }

  /** Both tables agree on one key. */
  predicate Same(t: Table, t': Table, k: string) {
    (k in t <==> k in t') && (k in t && k in t' ==> t[k] == t'[k])
  }

  /** tonumber(lookup(k) or 0) or 0 */
  function NumberAt(t: Table, k: string): nat {
    if k in t && ToNumber(t[k].value).Some? then ToNumber(t[k].value).value else 0
  }

  class ServiceEngine {
    var clock: nat
    var table: Table

    constructor ()
      ensures clock == 0 && table == map[]
    {
      clock, table := 0, map[];
    }

    method TableLookup(k: string) returns (v: Option<string>)
      ensures v == Lookup(table, k)
    {
      v := if k in table then Some(table[k].value) else None;
    }

    /** A counter read: a missing entry counts as 0. */
    method ReadNumber(k: string) returns (n: nat)
      ensures n == NumberAt(table, k)
    {
      n := 0;
      if k in table {
        var parsed := ToNumber(table[k].value);
        if parsed.Some? {
          n := parsed.value;
        }
      }
    }

    method TableRemove(k: string)
      modifies this`table
      ensures table == Remove(old(table), k)
    {
      table := table - {k};
    }

    method TableInsert(k: string, v: string, ttl: nat)
      modifies this`table
      ensures table == Insert(old(table), clock, k, v, ttl)
    {
      if k !in table {
        table := table[k := Entry(v, clock + ttl)];
      }
    }

    method Advance(to: nat)
      requires clock <= to
      modifies this
      ensures clock == to
      ensures table == Expire(old(table), to)
    {
      clock := to;
      table := map k | k in table && to < table[k].expires :: table[k];
    }
  }
}
