/**
 * The host's storage adapter (`Storage` in storage.js) over the native
 * key/value store. The store holds strings only: `setItem` writes a string
 * value as it is and any other value as its JSON text; `getItem` hands back
 * the stored text without decoding it.
 */
module StorageAdapter {
  import opened Wrappers
  import opened Json

  /**
   * The text `setItem` passes down for a value: the string itself when the
   * value is a string, otherwise `JSON.stringify` of it. `undefined` has no
   * text (None).
   */
  function StoredForm(v: Value): (r: Option<string>)
    ensures v.Str? ==> r == Some(v.s)
    ensures !v.Str? ==> r == Stringify(v)
    ensures r.None? <==> v.Undefined?
  {
    if v.Str? then Some(v.s) else Stringify(v)
  }

  /**
   * The store after `setItem(key, v)`. A value without a text is assumed to
   * be refused by the native store, which then keeps its contents.
   */
  function AfterSet(m: map<string, string>, key: string, v: Value): map<string, string>
  {
    match StoredForm(v)
    case None => m
    case Some(t) => m[key := t]
  }

  /** What `getItem(key)` resolves to: the stored text, or None (`null`). */
  function Lookup(m: map<string, string>, key: string): Option<string>
  {
    if key in m then Some(m[key]) else None
  }

  function AfterRemove(m: map<string, string>, key: string): map<string, string>
  {
    m - {key}
  }

  class Storage {
    /** The contents of the native store. */
    var items: map<string, string>

    constructor(initial: map<string, string>)
      ensures items == initial
    {
      items := initial;
    }

    /** Returns whether the native store accepted the write. */
    method SetItem(key: string, value: Value) returns (ok: bool)
      modifies this
      ensures ok <==> StoredForm(value).Some?
      ensures items == AfterSet(old(items), key, value)
    {
      var text := if value.Str? then Some(value.s) else Stringify(value);
      match text {
        case None =>
          ok := false;
        case Some(t) =>
          items := items[key := t];
          ok := true;
      }
    }

    /** `defaultValue` is accepted and never consulted. */
    method GetItem(key: string, defaultValue: Value) returns (r: Option<string>)
      ensures r == Lookup(items, key)
    {
      if key in items {
        r := Some(items[key]);
      } else {
        r := None;
      }
    }

    method RemoveItem(key: string)
      modifies this
      ensures items == AfterRemove(old(items), key)
    {
      items := items - {key};
    }
  }

  // ---------------------------------------------------------------------------
  // Properties of the adapter
  // ---------------------------------------------------------------------------

  /** A string written with `setItem` reads back verbatim. */
  lemma GetAfterSetString(m: map<string, string>, key: string, s: string)
    ensures Lookup(AfterSet(m, key, Str(s)), key) == Some(s)
  {
  }

  /** Any other defined value reads back as its JSON text, not as itself. */
  lemma GetAfterSetOther(m: map<string, string>, key: string, v: Value)
    requires !v.Str? && !v.Undefined?
    ensures Lookup(AfterSet(m, key, v), key) == Some(Render(v))
  {
  }

  /**
   * Because reads do not decode, a value and the string holding its JSON
   * text leave the store in the same state: a reader cannot tell them apart.
   */
  lemma ReadDoesNotDecode(m: map<string, string>, key: string, v: Value)
    requires !v.Str? && !v.Undefined?
    ensures Str(Render(v)) != v
    ensures AfterSet(m, key, Str(Render(v))) == AfterSet(m, key, v)
  {
  }

  /** After `removeItem(key)`, `getItem(key)` finds nothing. */
  lemma GetAfterRemove(m: map<string, string>, key: string)
    ensures Lookup(AfterRemove(m, key), key) == None
  {
  }

  /** Each write and remove affects its own key only. */
  lemma OtherKeysUnchanged(m: map<string, string>, key: string, other: string, v: Value)
    requires other != key
    ensures Lookup(AfterSet(m, key, v), other) == Lookup(m, other)
    ensures Lookup(AfterRemove(m, key), other) == Lookup(m, other)
  {
  }
}
