/**
 * BuildProperties, shared word for word by both targets: the dictionary of
 * properties sent with every tracked event or error. A dictionary is its
 * entries in enumeration order; the context-property dictionary compares
 * keys ignoring case, so setting a key already present (in any casing)
 * keeps the stored key and replaces its value.
 */
module Properties {
  import opened Wrappers
  import opened Text
  import opened Logging

  /** The position of the entry whose key equals key ignoring case, or |entries| when there is none. */
  function IndexOfKey(entries: seq<Entry>, key: string): (i: nat)
    ensures i <= |entries|
    ensures i < |entries| ==> EqualsIgnoreCase(entries[i].key, key)
    ensures forall j :: 0 <= j < i ==> !EqualsIgnoreCase(entries[j].key, key)
  {
    if entries == [] then 0
    else if EqualsIgnoreCase(entries[0].key, key) then 0
    else 1 + IndexOfKey(entries[1..], key)
  }

  /** TryGetValue on a dictionary with StringComparer.OrdinalIgnoreCase. */
  function Lookup(entries: seq<Entry>, key: string): Option<string>
  {
    var i := IndexOfKey(entries, key);
    if i < |entries| then Some(entries[i].value) else None
  }

  /** The keys stored in a dictionary. */
  function Keys(entries: seq<Entry>): set<string>
  {
    set e | e in entries :: e.key
  }

  /** No two entries have keys that are equal ignoring case. */
  predicate DistinctKeys(entries: seq<Entry>)
  {
    forall i, j :: 0 <= i < j < |entries| ==> !EqualsIgnoreCase(entries[i].key, entries[j].key)
  }

  /** The index of a key depends on the stored keys only. */
  lemma {:induction false} IndexOfKeySameKeys(xs: seq<Entry>, ys: seq<Entry>, key: string)
    requires |xs| == |ys|
    requires forall j :: 0 <= j < |xs| ==> xs[j].key == ys[j].key
    ensures IndexOfKey(xs, key) == IndexOfKey(ys, key)
  {
    if xs != [] {
      IndexOfKeySameKeys(xs[1..], ys[1..], key);
    }
  }

  lemma {:induction false} IndexOfKeyAppend(entries: seq<Entry>, e: Entry, key: string)
    ensures IndexOfKey(entries + [e], key) == AppendedIndex(entries, e, key)
  {
    if entries != [] {
      assert (entries + [e])[0] == entries[0];
      assert (entries + [e])[1..] == entries[1..] + [e];
      IndexOfKeyAppend(entries[1..], e, key);
    } else {
      assert (entries + [e])[1..] == [];
    }
  }

  /**
   * dictionary[key] = value on a dictionary with StringComparer.OrdinalIgnoreCase:
   * afterwards key (in any casing) finds value, every other key finds what it
   * found before, at most one entry is added, and no stored key is new except key;
 * overwriting an existing key keeps its stored spelling and position.
   */
  function Put(entries: seq<Entry>, key: string, value: string): (r: seq<Entry>)
    ensures Lookup(r, key) == Some(value)
    ensures forall k :: !EqualsIgnoreCase(k, key) ==> Lookup(r, k) == Lookup(entries, k)
    ensures |entries| <= |r| <= |entries| + 1
    ensures Keys(r) <= Keys(entries) + {key}
    ensures DistinctKeys(entries) ==> DistinctKeys(r)
    ensures IndexOfKey(entries, key) < |entries| ==>
      |r| == |entries| && forall j :: 0 <= j < |r| ==> r[j].key == entries[j].key
  {
    var i := IndexOfKey(entries, key);
    if i < |entries| then
      var r := entries[i := Entry(entries[i].key, value)];
      ReplaceValueKeepsKeys(entries, i, value);
      r
    else
      var r := entries + [Entry(key, value)];
      AppendEntryIndices(entries, Entry(key, value));
      r
  }

  /** Replacing a value leaves every key where it was. */
  lemma ReplaceValueKeepsKeys(entries: seq<Entry>, i: nat, value: string)
    requires i < |entries|
    ensures forall k :: IndexOfKey(entries[i := Entry(entries[i].key, value)], k) == IndexOfKey(entries, k)
    ensures Keys(entries[i := Entry(entries[i].key, value)]) == Keys(entries)
  {
    var r := entries[i := Entry(entries[i].key, value)];
    forall k ensures IndexOfKey(r, k) == IndexOfKey(entries, k) {
      IndexOfKeySameKeys(r, entries, k);
    }
    forall e | e in r ensures e.key in Keys(entries) {
      var j :| 0 <= j < |r| && r[j] == e;
      assert entries[j].key == e.key;
    }
    forall e | e in entries ensures e.key in Keys(r) {
      var j :| 0 <= j < |entries| && entries[j] == e;
      assert r[j].key == e.key;
    }
  }

  /** Where key is found once e has been appended to entries. */
  function AppendedIndex(entries: seq<Entry>, e: Entry, key: string): nat
  {
    if IndexOfKey(entries, key) < |entries| then IndexOfKey(entries, key)
    else if EqualsIgnoreCase(e.key, key) then |entries| else |entries| + 1
  }

  /** Appending an entry leaves every key already present where it was. */
  lemma AppendEntryIndices(entries: seq<Entry>, e: Entry)
    ensures forall k :: IndexOfKey(entries + [e], k) == AppendedIndex(entries, e, k)
  {
    forall k {
      IndexOfKeyAppend(entries, e, k);
    }
  }

  /** Whether the loop stores a context property: it has a name, and a non-empty value unless IncludeEmptyValue is set. */
  predicate Admitted(p: ContextProperty)
  {
    !IsNullOrEmpty(p.name) && (p.includeEmptyValue || !IsNullOrEmpty(p.value))
  }

  /** The dictionary the context-property loop builds from the properties, in their order. */
  function ContextEntries(props: seq<ContextProperty>): seq<Entry>
  {
    if props == [] then []
    else
      var entries := ContextEntries(props[..|props| - 1]);
      var p := props[|props| - 1];
      if Admitted(p) then Put(entries, p.name, p.value) else entries
  }

  /** The value of the last admitted property whose name equals key ignoring case. */
  function LastValue(props: seq<ContextProperty>, key: string): Option<string>
  {
    if props == [] then None
    else
      var p := props[|props| - 1];
      if Admitted(p) && EqualsIgnoreCase(p.name, key) then Some(p.value)
      else LastValue(props[..|props| - 1], key)
  }

  /** The names of the admitted properties. */
  function AdmittedNames(props: seq<ContextProperty>): set<string>
  {
    set p | p in props && Admitted(p) :: p.name
  }

  /** Last write wins: every key finds the value of the last admitted property with that name, ignoring case, and nothing else. */
  lemma {:induction false} ContextEntriesLookup(props: seq<ContextProperty>, key: string)
    ensures Lookup(ContextEntries(props), key) == LastValue(props, key)
  {
    if props != [] {
      var init, p := props[..|props| - 1], props[|props| - 1];
      ContextEntriesLookup(init, key);
      if Admitted(p) && EqualsIgnoreCase(p.name, key) {
        IndexOfKeyIgnoresCase(ContextEntries(props), p.name, key);
      }
    }
  }

  /** Keys equal ignoring case find the same entry. */
  lemma {:induction false} IndexOfKeyIgnoresCase(entries: seq<Entry>, k1: string, k2: string)
    requires EqualsIgnoreCase(k1, k2)
    ensures IndexOfKey(entries, k1) == IndexOfKey(entries, k2)
  {
    if entries != [] {
      IndexOfKeyIgnoresCase(entries[1..], k1, k2);
    }
  }

  /**
   * The dictionary never holds two keys equal ignoring case, has at most one
   * entry per property, and stores only names of admitted properties.
   */
  lemma {:induction false} ContextEntriesShape(props: seq<ContextProperty>)
    ensures DistinctKeys(ContextEntries(props))
    ensures |ContextEntries(props)| <= |props|
    ensures Keys(ContextEntries(props)) <= AdmittedNames(props)
  {
    if props != [] {
      var init := props[..|props| - 1];
      ContextEntriesShape(init);
      assert AdmittedNames(init) <= AdmittedNames(props) by {
        forall p | p in init ensures p in props {
          var j :| 0 <= j < |init| && init[j] == p;
          assert props[j] == p;
        }
      }
      var last := props[|props| - 1];
      assert Admitted(last) ==> last.name in AdmittedNames(props);
    }
  }

  /** The dictionary BuildProperties returns: all event properties when they are to be included, else the context entries. */
  function PropertiesFor(rendering: Rendering): (r: seq<Entry>)
    ensures !rendering.includeAllProperties ==> DistinctKeys(r) && |r| <= |rendering.contextProperties|
  {
    ContextEntriesShape(rendering.contextProperties);
    if rendering.includeAllProperties then rendering.allProperties else ContextEntries(rendering.contextProperties)
  }

  /** The properties sent with an event (BuildProperties). */
  method BuildProperties(rendering: Rendering) returns (properties: seq<Entry>)
    ensures properties == PropertiesFor(rendering)
    ensures !rendering.includeAllProperties ==>
      && DistinctKeys(properties)
      && |properties| <= |rendering.contextProperties|
      && Keys(properties) <= AdmittedNames(rendering.contextProperties)
      && forall key :: Lookup(properties, key) == LastValue(rendering.contextProperties, key)
  {
    var props := rendering.contextProperties;
    if rendering.includeAllProperties {
      properties := rendering.allProperties;
      return;
    } else if |props| > 0 {
      properties := [];
      for i := 0 to |props|
        invariant properties == ContextEntries(props[..i])
      {
        assert props[..i + 1][..i] == props[..i];
        var p := props[i];
        if IsNullOrEmpty(p.name) {
          continue;
        }
        if !p.includeEmptyValue && IsNullOrEmpty(p.value) {
          continue;
        }
        properties := Put(properties, p.name, p.value);
      }
      assert props[..|props|] == props;
    } else {
      properties := [];
    }
    ContextEntriesShape(props);
    forall key ensures Lookup(properties, key) == LastValue(props, key) {
      ContextEntriesLookup(props, key);
    }
  }

  /** Two named properties with values give exactly two entries, each under its own name. */
  lemma TwoPropertiesTwoEntries(typeName: string, message: string)
    requires typeName != [] && message != []
    ensures ContextEntries([ContextProperty("exception.Type", typeName, false),
                            ContextProperty("exception.Message", message, false)])
         == [Entry("exception.Type", typeName), Entry("exception.Message", message)]
  {
    var props := [ContextProperty("exception.Type", typeName, false),
                  ContextProperty("exception.Message", message, false)];
    var first := [Entry("exception.Type", typeName)];
    assert props[..1] == [props[0]];
    assert props[..1][..0] == [];
    assert ContextEntries(props[..1]) == Put([], "exception.Type", typeName);
    assert Put([], "exception.Type", typeName) == first;
    assert !EqualsIgnoreCase("exception.Type", "exception.Message") by {
      assert |FoldCase("exception.Type")| != |FoldCase("exception.Message")|;
    }
    assert IndexOfKey(first, "exception.Message") == 1;
    assert Put(first, "exception.Message", message) == first + [Entry("exception.Message", message)];
  }
}
