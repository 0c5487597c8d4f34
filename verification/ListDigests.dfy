/**
 * The digests of the lists callers see, kept per visibility class and registry version (_list_entries and
 * _list_digest of easy_mcp/server.py).
 */
module ListDigests {
  import opened Wrappers
  import opened Routing

  const DIGESTS_MAX: nat := 1024

  /** One definition as tools/list, prompts/list or resources/list shows it. */
  datatype Item = Item(guard: Guard, text: string)

  /** What each registry held at each version, and the digest of a list of texts. */
  datatype World = World(config: Config, items: (string, nat) -> seq<Item>, digest: seq<string> -> string)

  datatype Key = Key(kind: string, viewers: VisibilityClass)
  datatype Entry = Entry(key: Key, version: nat, digest: string)

  /** The list the caller gets. */
  function Shown(config: Config, items: seq<Item>, identity: Option<Identity>): seq<string> {
    if items == [] then []
    else
      (if Visible(config, identity, items[0].guard) then [items[0].text] else [])
      + Shown(config, items[1..], identity)
  }

  function DigestAt(w: World, kind: string, version: nat, identity: Option<Identity>): string {
    w.digest(Shown(w.config, w.items(kind, version), identity))
  }

  /** Callers of one class get the same list. */
  lemma {:induction false} ShownByClass(config: Config, items: seq<Item>, a: Option<Identity>, b: Option<Identity>)
    requires ClassOf(config, a) == ClassOf(config, b)
    ensures Shown(config, items, a) == Shown(config, items, b)
  {
    if items != [] {
      ClassDecidesVisibility(config, a, b, [items[0].guard]);
      assert Visible(config, a, [items[0].guard][0]) <==> Visible(config, b, [items[0].guard][0]);
      ShownByClass(config, items[1..], a, b);
    }
  }

  /** What an item adds to the list: its text, if the caller sees it. */
  function Line(config: Config, item: Item, identity: Option<Identity>): seq<string> {
    if Visible(config, identity, item.guard) then [item.text] else []
  }

  lemma ShownFirst(config: Config, items: seq<Item>, identity: Option<Identity>)
    requires items != []
    ensures Shown(config, items, identity) == Line(config, items[0], identity) + Shown(config, items[1..], identity)
  {
  }

  lemma {:induction false} ShownParts(config: Config, a: seq<Item>, b: seq<Item>, identity: Option<Identity>)
    ensures Shown(config, a + b, identity) == Shown(config, a, identity) + Shown(config, b, identity)
  {
    if a == [] {
      assert a + b == b;
    } else {
      hide Shown, Line;
      ShownParts(config, a[1..], b, identity);
      ShownFirst(config, a, identity);
      ShownFirst(config, a + b, identity);
      TailOf(a, b);
      Regrouped(Line(config, a[0], identity), Shown(config, a[1..], identity), Shown(config, b, identity));
    }
  }

  lemma TailOf(a: seq<Item>, b: seq<Item>)
    requires a != []
    ensures (a + b)[1..] == a[1..] + b && (a + b)[0] == a[0]
  {
  }

  lemma Regrouped(a: seq<string>, b: seq<string>, c: seq<string>)
    ensures a + (b + c) == a + b + c
  {
  }

  /** Wherever it stands, an item adds its line at its place and nothing else. */
  lemma ShownAt(config: Config, items: seq<Item>, identity: Option<Identity>, k: nat)
    requires k < |items|
    ensures Shown(config, items, identity) ==
      Shown(config, items[..k], identity) + Line(config, items[k], identity) + Shown(config, items[k + 1..], identity)
  {
    assert items == items[..k] + items[k..] && items[k..] == [items[k]] + items[k + 1..];
    ShownParts(config, items[..k], items[k..], identity);
    ShownParts(config, [items[k]], items[k + 1..], identity);
    assert Shown(config, [items[k]], identity) == Line(config, items[k], identity);
  }

  /** The server's _digests, least recently used first. */
  class DigestCache {
    var entries: seq<Entry>

    constructor ()
      ensures entries == []
    {
      entries := [];
    }

    /**
     * Every digest is that of the list every caller of its class sees at its version; no more than the cap, one a
     * key.
     */
    ghost predicate Valid(w: World)
      reads this
    {
      AllRight(w, entries)
    }

    /** The first lock section: the digest kept for the version, which is now the last used. */
    method Cached(w: World, kind: string, identity: Option<Identity>, current: nat) returns (digest: Option<string>)
      requires Valid(w)
      modifies this
      ensures Valid(w)
      ensures digest.Some? ==> digest.value == DigestAt(w, kind, current, identity)
      ensures digest.Some? <==> IsKept(old(entries), Key(kind, ClassOf(w.config, identity)), current)
      ensures var key := Key(kind, ClassOf(w.config, identity));
        if digest.Some? then entries == Besides(old(entries), key) + [Entry(key, current, digest.value)]
            else entries == old(entries)
    {
      var key := Key(kind, ClassOf(w.config, identity));
      var at := Find(key);
      if at.None? || entries[at.value].version != current { return None; }
      var found := entries[at.value];
      assert Right(w, found);
      BesidesAt(entries, key, at.value);
      PutLast(w, entries, at.value, found);
      entries := entries[..at.value] + entries[at.value + 1..] + [found];
      digest := Some(found.digest);
    }

    /**
     * The second: the digest of the list as it was read is the last used, and the least recently used of too many
     * goes.
     */
    method Store(w: World, kind: string, identity: Option<Identity>, read: nat) returns (digest: string)
      requires Valid(w)
      modifies this
      ensures Valid(w) && digest == DigestAt(w, kind, read, identity)
      ensures var key := Key(kind, ClassOf(w.config, identity));
        var all := Besides(old(entries), key) + [Entry(key, read, digest)];
        entries == if |all| > DIGESTS_MAX then all[1..] else all
    {
      var key := Key(kind, ClassOf(w.config, identity));
      digest := DigestAt(w, kind, read, identity);
      RightForClass(w, kind, read, identity);
      var at := Find(key);
      BesidesAt(entries, key, if at.Some? then at.value else |entries|);
      var kept := if at.Some? then entries[..at.value] + entries[at.value + 1..] else entries;
      PutLast(w, entries, if at.Some? then at.value else |entries|, Entry(key, read, digest));
      entries := kept + [Entry(key, read, digest)];
      if |entries| > DIGESTS_MAX { entries := entries[1..]; }
    }

    /**
     * The version is read first, and the list, if it must be, at a version of its own: the answer is the digest of
     * what the caller saw at one of the two.
     */
    method ListDigest(w: World, kind: string, identity: Option<Identity>, current: nat, read: nat)
        returns (digest: string)
      requires Valid(w) && current <= read
      modifies this
      ensures Valid(w)
      ensures digest == DigestAt(w, kind, current, identity) || digest == DigestAt(w, kind, read, identity)
    {
      var cached := Cached(w, kind, identity, current);
      if cached.Some? { return cached.value; }
      digest := Store(w, kind, identity, read);
    }

    method Find(key: Key) returns (at: Option<nat>)
      ensures at.Some? ==> at.value < |entries| && entries[at.value].key == key
      ensures at.None? ==> forall i :: 0 <= i < |entries| ==> entries[i].key != key
    {
      for i := 0 to |entries|
        invariant forall j :: 0 <= j < i ==> entries[j].key != key
      {
        if entries[i].key == key { return Some(i); }
      }
      at := None;
    }
  }

  /** A digest of that very version is kept for the key. */
  ghost predicate IsKept(entries: seq<Entry>, key: Key, version: nat) {
    exists i :: 0 <= i < |entries| && entries[i].key == key && entries[i].version == version
  }

  /** The other keys' entries, in their order. */
  function Besides(entries: seq<Entry>, key: Key): seq<Entry> {
    if entries == [] then [] else (if entries[0].key == key then [] else [entries[0]]) + Besides(entries[1..], key)
  }

  lemma {:induction false} BesidesAt(entries: seq<Entry>, key: Key, at: nat)
    requires at <= |entries| && (at < |entries| ==> entries[at].key == key)
    requires forall i :: 0 <= i < |entries| && i != at ==> entries[i].key != key
    ensures Besides(entries, key) == if at == |entries| then entries else entries[..at] + entries[at + 1..]
  {
    if entries != [] {
      if at == 0 { BesidesAt(entries[1..], key, |entries| - 1); }
      else {
        BesidesAt(entries[1..], key, at - 1);
        if at < |entries| { assert entries[..at] == [entries[0]] + entries[1..][..at - 1]; }
      }
    }
  }

  ghost predicate AllRight(w: World, entries: seq<Entry>) {
    && |entries| <= DIGESTS_MAX
    && (forall i, j :: 0 <= i < j < |entries| ==> entries[i].key != entries[j].key)
    && (forall i :: 0 <= i < |entries| ==> Right(w, entries[i]))
  }

  /** An entry taken out, if it was there, and one of its key put last: the cache stays right, and within its cap. */
  lemma PutLast(w: World, entries: seq<Entry>, at: nat, entry: Entry)
    requires AllRight(w, entries) && Right(w, entry) && at <= |entries|
    requires (at < |entries| ==> entries[at].key == entry.key)
    requires forall i :: 0 <= i < |entries| && i != at ==> entries[i].key != entry.key
    ensures var all := (if at < |entries| then entries[..at] + entries[at + 1..] else entries) + [entry];
      AllRight(w, if |all| > DIGESTS_MAX then all[1..] else all) && (at < |entries| ==> |all| == |entries|)
  {
    hide Right;
  }

  ghost predicate Right(w: World, entry: Entry) {
    forall identity :: ClassOf(w.config, identity) == entry.key.viewers ==>
        entry.digest == DigestAt(w, entry.key.kind, entry.version, identity)
  }

  lemma RightForClass(w: World, kind: string, version: nat, identity: Option<Identity>)
    ensures Right(w, Entry(Key(kind, ClassOf(w.config, identity)), version, DigestAt(w, kind, version, identity)))
  {
    forall other | ClassOf(w.config, other) == ClassOf(w.config, identity)
      ensures DigestAt(w, kind, version, other) == DigestAt(w, kind, version, identity)
    {
      ShownByClass(w.config, w.items(kind, version), other, identity);
    }
  }
}
