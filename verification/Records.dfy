/** Protobuf messages as objects that callers can hold and change, and the loader behind the data source. */
module Records {
  import opened Wrappers
  import opened Configuration

  /** A pointer to a message; setting any of its fields is an assignment to `value`. */
  class Message<T> {
    var value: T

    constructor (value: T)
      ensures this.value == value
    {
      this.value := value;
    }
  }

  /** A deep copy at a new address. */
  method Clone<T>(m: Message<T>) returns (c: Message<T>)
    ensures fresh(c) && c.value == m.value
  {
    c := new Message(m.value);
  }

  /** What the messages in `rows` hold. */
  function Values<T>(rows: seq<Message<T>>): (vs: seq<T>)
    reads rows
    ensures |vs| == |rows|
  {
    if rows == [] then [] else [rows[0].value] + Values(rows[1..])
  }

  lemma {:induction false} ValuesAt<T>(rows: seq<Message<T>>)
    ensures forall i | 0 <= i < |rows| :: Values(rows)[i] == rows[i].value
  {
    if rows != [] {
      ValuesAt(rows[1..]);
      assert forall i | 0 < i < |rows| :: rows[i] == rows[1..][i - 1];
    }
  }

  lemma ValuesAppend<T>(rows: seq<Message<T>>, m: Message<T>)
    ensures Values(rows + [m]) == Values(rows) + [m.value]
  {
    ValuesAt(rows);
    ValuesAt(rows + [m]);
  }

  lemma ValuesWithout<T>(rows: seq<Message<T>>, i: nat)
    requires i < |rows|
    ensures Values(Without(rows, i)) == Without(Values(rows), i)
  {
    ValuesAt(rows);
    ValuesAt(Without(rows, i));
  }

  lemma ValuesReplace<T>(rows: seq<Message<T>>, i: nat, m: Message<T>)
    requires i < |rows|
    ensures Values(rows[i := m]) == Values(rows)[i := m.value]
  {
    ValuesAt(rows);
    ValuesAt(rows[i := m]);
  }

  /** No message occurs twice. */
  ghost predicate Unaliased<T>(ms: seq<Message<T>>) {
    forall i, j | 0 <= i < j < |ms| :: ms[i] != ms[j]
  }

  /** Copies of all `rows`, in order. */
  method CloneAll<T>(rows: seq<Message<T>>) returns (copies: seq<Message<T>>)
    ensures (forall m | m in copies :: fresh(m)) && Values(copies) == old(Values(rows)) && Unaliased(copies)
  {
    ValuesAt(rows);
    copies := [];
    for i := 0 to |rows|
      invariant (forall m | m in copies :: fresh(m)) && Values(copies) == old(Values(rows))[..i] && Unaliased(copies)
    {
      var c := Clone(rows[i]);
      ValuesAppend(copies, c);
      copies := copies + [c];
    }
  }

  /** New messages that hold `values`. */
  method Allocate<T>(values: seq<T>) returns (rows: seq<Message<T>>)
    ensures (forall m | m in rows :: fresh(m)) && Values(rows) == values
  {
    rows := [];
    for i := 0 to |values|
      invariant (forall m | m in rows :: fresh(m)) && Values(rows) == values[..i]
    {
      var m := new Message(values[i]);
      ValuesAppend(rows, m);
      rows := rows + [m];
    }
  }

  /** The position of the first row that satisfies `p`, or `|rows|` when there is none. */
  function Scan<T>(rows: seq<Message<T>>, p: T -> bool): (i: nat)
    reads rows
    ensures i == FirstIndex(Values(rows), p) && i <= |rows|
    ensures i < |rows| ==> Values(rows)[i] == rows[i].value
  {
    if rows == [] || p(rows[0].value) then 0
    else
      assert Values(rows)[1..] == Values(rows[1..]);
      1 + Scan(rows[1..], p)
  }

  /** The rows that satisfy `p`, in order, uncopied. */
  method Select<T>(rows: seq<Message<T>>, p: T -> bool) returns (selected: seq<Message<T>>)
    ensures Values(selected) == Filter(Values(rows), p) && |selected| == |Filter(Values(rows), p)|
    ensures forall m | m in selected :: m in rows
  {
    ValuesAt(rows);
    selected := [];
    for i := 0 to |rows|
      invariant Values(selected) == Filter(Values(rows)[..i], p)
      invariant forall m | m in selected :: m in rows
    {
      FilterAppend(Values(rows)[..i], rows[i].value, p);
      assert Values(rows)[..i] + [rows[i].value] == Values(rows)[..i + 1];
      if p(rows[i].value) {
        ValuesAppend(selected, rows[i]);
        selected := selected + [rows[i]];
      }
    }
    assert Values(rows)[..|rows|] == Values(rows);
  }

  /** A table of the configuration: a slice of pointers to records that no caller can reach. */
  class Table<T> {
    var rows: seq<Message<T>>
    // What the records hold.
    ghost var Model: seq<T>
    // Every message that `rows` points to (and possibly some that it once did).
    ghost var Owned: set<Message<T>>

    ghost predicate Valid()
      reads this, Owned
    {
      (forall m | m in rows :: m in Owned) && Values(rows) == Model
    }

    /** A table of new messages that hold `values`. */
    constructor (values: seq<T>)
      ensures Valid() && Model == values && fresh(Owned)
    {
      var ms := Allocate(values);
      rows := ms;
      Owned := set m | m in ms;
      Model := values;
    }

    /** A copy of the record at position `i`. */
    method CopyAt(i: nat) returns (m: Message<T>)
      requires Valid() && i < |Model|
      ensures fresh(m) && m.value == Model[i]
    {
      ValuesAt(rows);
      m := Clone(rows[i]);
    }

    /** `rows = append(rows, m)` for a new message `m` that holds `value`. */
    method Append(value: T) returns (m: Message<T>)
      requires Valid()
      modifies this
      ensures Valid() && Model == old(Model) + [value]
      ensures fresh(m) && m.value == value && Owned == old(Owned) + {m}
    {
      m := new Message(value);
      ValuesAppend(rows, m);
      rows := rows + [m];
      Model := Model + [m.value];
      Owned := Owned + {m};
    }

    /** `rows = append(rows[:i], rows[i+1:]...)`. */
    method Delete(i: nat)
      requires Valid() && i < |Model|
      modifies this
      ensures Valid() && Model == Without(old(Model), i) && Owned == old(Owned)
    {
      ValuesWithout(rows, i);
      rows := Without(rows, i);
      Model := Without(Model, i);
    }

    /** `rows[i] = m` for a new message `m` that holds `value`. */
    method Replace(i: nat, value: T) returns (m: Message<T>)
      requires Valid() && i < |Model|
      modifies this
      ensures Valid() && Model == old(Model)[i := value]
      ensures fresh(m) && m.value == value && Owned == old(Owned) + {m}
    {
      m := new Message(value);
      ValuesReplace(rows, i, m);
      rows := rows[i := m];
      Model := Model[i := m.value];
      Owned := Owned + {m};
    }

    /** `rows = slices.DeleteFunc(rows, ...)`, given what to keep. */
    method Keep(p: T -> bool)
      requires Valid()
      modifies this
      ensures Valid() && Model == Filter(old(Model), p) && Owned == old(Owned)
    {
      rows := Select(rows, p);
      Model := Filter(Model, p);
    }

    /** Copies of all records, in order. */
    method CopyAll() returns (copies: seq<Message<T>>)
      requires Valid()
      ensures (forall m | m in copies :: fresh(m)) && Values(copies) == Model && Unaliased(copies)
    {
      copies := CloneAll(rows);
    }

    /** Copies of the records that satisfy `p`, in order. */
    method CopyWhere(p: T -> bool) returns (copies: seq<Message<T>>)
      requires Valid()
      ensures (forall m | m in copies :: fresh(m)) && Values(copies) == Filter(Model, p) && Unaliased(copies)
    {
      var selected := Select(rows, p);
      copies := CloneAll(selected);
    }
  }

  /** A configuration store that each write replaces wholly or, if the write fails, not at all. */
  class Loader {
    var exists_: bool
    var data: Config
    // Writes to a reliable loader never fail.
    const reliable: bool

    constructor (config: Option<Config>, reliable: bool)
      ensures exists_ == config.Some? && (config.Some? ==> data == config.value) && this.reliable == reliable
    {
      exists_ := config.Some?;
      data := if config.Some? then config.value else NEW_CONFIG;
      this.reliable := reliable;
    }

    method Exists() returns (r: bool)
      ensures r == exists_
    {
      r := exists_;
    }

    method Read() returns (r: Option<Config>)
      ensures r == if exists_ then Some(data) else None
    {
      r := if exists_ then Some(data) else None;
    }

    method Write(config: Config) returns (ok: bool)
      modifies this
      ensures ok ==> exists_ && data == config
      ensures !ok ==> unchanged(this) && !reliable
    {
      ok := *;
      if ok || reliable {
        data := config;
        exists_ := true;
        ok := true;
      }
    }
  }
}
