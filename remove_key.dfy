/** `_remove_a_key`: delete one key from every dict reachable from a value
    through dict values. Lists, and dicts held in lists, are left alone. */
module KeyRemoval {

  import opened Wrappers
  import opened Json

  /** The tree `_remove_a_key(d, k)` leaves behind: a dict stays a dict
      without `k` and with no key it did not have; anything else is kept. */
  function Scrubbed(d: Json, k: string): (r: Json)
    ensures !d.JObject? ==> r == d
    ensures d.JObject? ==> r.JObject? && k !in r.fields
  {
    match d
    case JObject(m) => JObject(map key | key in m && key != k :: Scrubbed(m[key], k))
    case _ => d
  }

  /** No dict reachable through dict values keeps the key. */
  lemma {:induction false} ScrubbedRemovesKey(d: Json, k: string)
    ensures NoKey(Scrubbed(d, k), k)
  {
    if d.JObject? {
      forall key | key in d.fields && key != k ensures NoKey(Scrubbed(d.fields[key], k), k) {
        ScrubbedRemovesKey(d.fields[key], k);
      }
    }
  }

  /** The recursive walk of the source: iterate over a snapshot of the keys,
      delete the matching one, recurse into every other value. The snapshot is
      a set picked from in any order, so the result does not depend on the
      dict's iteration order. */
  method RemoveAKey(d: Json, removeKey: string) returns (r: Json)
    ensures r == Scrubbed(d, removeKey)
  {
    if !d.JObject? {
      return d;
    }
    var m := d.fields;
    var keys := m.Keys;
    while keys != {}
      invariant keys <= d.fields.Keys
      invariant forall key :: key in m <==> key in d.fields && (key in keys || key != removeKey)
      invariant forall key | key in m ::
        m[key] == if key in keys then d.fields[key] else Scrubbed(d.fields[key], removeKey)
      decreases keys
    {
      var key :| key in keys;
      if key == removeKey {
        m := m - {key};
      } else {
        var child := RemoveAKey(m[key], removeKey);
        m := m[key := child];
      }
      keys := keys - {key};
    }
    r := JObject(m);
  }

  /** A dict loses exactly the key `k`; a kept entry holds its old value,
      scrubbed. Anything but a dict comes back as it was. */
  lemma ScrubbedShape(d: Json, k: string)
    ensures !d.JObject? ==> Scrubbed(d, k) == d
    ensures d.JObject? ==> Scrubbed(d, k).JObject? && Scrubbed(d, k).fields.Keys == d.fields.Keys - {k}
  {
  }

  lemma ScrubbedEntry(m: map<string, Json>, k: string, key: string)
    requires key in m && key != k
    ensures key in Scrubbed(JObject(m), k).fields
    ensures Scrubbed(JObject(m), k).fields[key] == Scrubbed(m[key], k)
  {
  }

  function ScrubbedOption(o: Option<Json>, k: string): Option<Json>
  {
    match o
    case None => None
    case Some(v) => Some(Scrubbed(v, k))
  }

  /** Path view of the walk: a dict path through `k` disappears, every other
      path still leads where it did, to the scrubbed value. */
  lemma {:induction false} ScrubbedLookup(d: Json, k: string, path: seq<string>)
    ensures Lookup(Scrubbed(d, k), path) ==
            if k in path then None else ScrubbedOption(Lookup(d, path), k)
    decreases |path|
  {
    if path != [] && d.JObject? && path[0] in d.fields && path[0] != k {
      ScrubbedLookup(d.fields[path[0]], k, path[1..]);
      assert path[1..] + [] == path[1..];
    }
  }

  /** A tree is left unchanged exactly when it has no `k` to remove. */
  lemma {:induction false} ScrubbedFixpoint(d: Json, k: string)
    ensures Scrubbed(d, k) == d <==> NoKey(d, k)
  {
    ScrubbedRemovesKey(d, k);
    if d.JObject? && NoKey(d, k) {
      forall key | key in d.fields ensures Scrubbed(d.fields[key], k) == d.fields[key] {
        ScrubbedFixpoint(d.fields[key], k);
      }
      assert Scrubbed(d, k).fields == d.fields;
    }
  }

  lemma ScrubbedIdempotent(d: Json, k: string)
    ensures Scrubbed(Scrubbed(d, k), k) == Scrubbed(d, k)
  {
    ScrubbedRemovesKey(d, k);
    ScrubbedFixpoint(Scrubbed(d, k), k);
  }

  /** Scrubbing two keys gives the same tree in either order. */
  lemma {:induction false} ScrubbedCommute(d: Json, a: string, b: string)
    ensures Scrubbed(Scrubbed(d, a), b) == Scrubbed(Scrubbed(d, b), a)
  {
    if d.JObject? {
      var l := Scrubbed(Scrubbed(d, a), b);
      var r := Scrubbed(Scrubbed(d, b), a);
      forall key | key in d.fields && key != a && key != b
        ensures l.fields[key] == r.fields[key]
      {
        ScrubbedCommute(d.fields[key], a, b);
      }
      assert l.fields == r.fields;
    }
  }

  /** Scrubbing one key does not bring back another. */
  lemma {:induction false} ScrubbedKeepsNoKey(d: Json, a: string, b: string)
    requires NoKey(d, a)
    ensures NoKey(Scrubbed(d, b), a)
  {
    if d.JObject? {
      forall key | key in d.fields && key != b ensures NoKey(Scrubbed(d.fields[key], b), a) {
        ScrubbedKeepsNoKey(d.fields[key], a, b);
      }
    }
  }

  /** A list under a kept key comes back untouched, dicts inside it included. */
  lemma ListsAreNotEntered(m: map<string, Json>, key: string, k: string)
    requires key in m && key != k && m[key].JArray?
    ensures Scrubbed(JObject(m), k).fields[key] == m[key]
  {
  }

  /** Witness: a `k` inside a dict inside a list survives. */
  lemma KeyInsideListSurvives(k: string)
    requires k != "items"
    ensures var tree := JObject(map["items" := JArray([JObject(map[k := JNull])])]);
            Scrubbed(tree, k) == tree && !NoKey(Scrubbed(tree, k).fields["items"].items[0], k)
  {
  }
}
