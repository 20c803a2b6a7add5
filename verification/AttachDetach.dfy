/** The channel check boxes of a check: the form's ids against the link table, by detaching and attaching one by one. */
module AttachDetach {
  import opened Text
  import opened Model
  import opened WriteThrough
  import opened Tables
  import opened Integrity
  import opened Database
  import opened StateCache

  /** Which store accesses fail: the look-up of an id, the listing, the detach or attach of an id. */
  datatype LinkFaults = LinkFaults(lookup: set<int>, list: bool, detach: set<int>, attach: set<int>)

  /** The numbers a form submits. */
  function Submitted(form: seq<string>): set<int>
  {
    set s | s in form && ParseInt(s).Some? :: ParseInt(s).value
  }

  /** The submitted ids of known channels whose look-up succeeded. */
  function Wanted(form: seq<string>, channels: set<nat>, lookupFaults: set<int>): set<nat>
  {
    set h | h in channels && h in Submitted(form) && h !in lookupFaults
  }

  /** The channels linked to a check. */
  function Linked(links: set<(string, nat)>, check: string): set<nat>
  {
    set l | l in links && l.0 == check :: l.1
  }

  lemma LinkedIsAttached(db: Db, check: string)
    requires Sound(db)
    ensures Linked(db.links, check) == Attached(db, check)
  {
  }

  /** Only links of this check differ. */
  ghost predicate OnlyLinksOf(check: string, a: Db, b: Db)
  {
    && b == a.(links := b.links)
    && forall c, h: nat :: c != check ==> ((c, h) in a.links <==> (c, h) in b.links)
  }

  lemma LinkedAfter(links: set<(string, nat)>, check: string, h: nat)
    ensures Linked(links - {(check, h)}, check) == Linked(links, check) - {h}
    ensures Linked(links + {(check, h)}, check) == Linked(links, check) + {h}
  {
    var less, more := links - {(check, h)}, links + {(check, h)};
    forall x ensures x in Linked(less, check) <==> x in Linked(links, check) - {h} {
      assert x in Linked(less, check) <==> (check, x) in less;
      assert x in Linked(links, check) <==> (check, x) in links;
    }
    forall x ensures x in Linked(more, check) <==> x in Linked(links, check) + {h} {
      assert x in Linked(more, check) <==> (check, x) in more;
      assert x in Linked(links, check) <==> (check, x) in links;
    }
  }

  lemma SubmittedSpelled(form: seq<string>)
    ensures forall v: int :: v in Submitted(form) <==> exists s :: s in form && Spells(s, v)
  {
    forall s: string, v: int ensures ParseInt(s) == Some(v) <==> Spells(s, v) {
      ParseIntSpells(s, v);
    }
    hide ParseInt, Spells;
    forall v: int | v in Submitted(form) ensures exists s :: s in form && Spells(s, v) {
      var s :| s in form && ParseInt(s) == Some(v);
      assert Spells(s, v);
    }
  }

  /** The desired map, as parsed from the form. */
  method ParseIds(form: seq<string>) returns (desired: set<int>)
    ensures desired == Submitted(form)
    ensures forall v: int :: v in desired <==> exists s :: s in form && Spells(s, v)
  {
    SubmittedSpelled(form);
    desired := {};
    for i := 0 to |form|
      invariant desired == Submitted(form[..i])
    {
      assert form[..i + 1] == form[..i] + [form[i]];
      hide ParseInt, Spells;
      assert Submitted(form[..i + 1]) == Submitted(form[..i]) + if ParseInt(form[i]).Some? then {ParseInt(form[i]).value} else {};
      var id := ParseInt(form[i]);
      if id.Some? {
        desired := desired + {id.value};
      }
    }
    assert form[..|form|] == form;
  }

  /** Drops the ids whose look-up fails, in any order. */
  method DropUnknown(repo: Database, submitted: set<int>, faults: set<int>) returns (desired: set<int>)
    ensures forall id: int :: id in desired <==> id in submitted && id >= 0 && id in repo.channels && id !in faults
  {
    desired := submitted;
    var todo := submitted;
    while exists id: int :: id in todo
      invariant todo <= desired && todo <= submitted
      invariant forall id: int :: id in desired <==> id in todo || (id in submitted && id >= 0 && id in repo.channels && id !in faults)
      decreases |todo|
    {
      var id: int :| id in todo;
      if id < 0 || id !in repo.channels || id in faults {
        desired := desired - {id};
      }
      todo := todo - {id};
    }
  }

  /** Detaches, in listing order, what is not desired; stops at the first failure. */
  method DetachOthers(repo: Database, check: string, current: seq<Channel>, desired: set<int>, faults: set<int>) returns (ok: bool)
    modifies repo`links
    ensures OnlyLinksOf(check, old(repo.Abs()), repo.Abs())
    ensures Linked(repo.links, check) <= Linked(old(repo.links), check)
    ensures forall h :: h in Linked(old(repo.links), check) && h in desired ==> h in Linked(repo.links, check)
    ensures ok ==> forall h :: h in Linked(repo.links, check) ==> h in desired || forall c :: c in current ==> c.id != h
    ensures ok <==> forall c :: c in current ==> c.id in desired || c.id !in faults
  {
    for i := 0 to |current|
      invariant OnlyLinksOf(check, old(repo.Abs()), repo.Abs())
      invariant Linked(repo.links, check) <= Linked(old(repo.links), check)
      invariant forall h :: h in Linked(old(repo.links), check) && h in desired ==> h in Linked(repo.links, check)
      invariant forall h :: h in Linked(repo.links, check) ==> h in desired || forall c :: c in current[..i] ==> c.id != h
      invariant forall c :: c in current[..i] ==> c.id in desired || c.id !in faults
    {
      assert current[..i + 1] == current[..i] + [current[i]] && current[i] in current;
      LinkedAfter(repo.links, check, current[i].id);
      hide Linked;
      if current[i].id !in desired {
        var out := repo.DetachFromCheck(check, current[i].id, current[i].id in faults);
        if out != Done {
          return false;
        }
      }
    }
    assert current[..|current|] == current;
    ok := true;
  }

  /** Attaches the desired ones, in any order; stops at the first failure. */
  method AttachAll(repo: Database, check: string, desired: set<int>, faults: set<int>) returns (ok: bool)
    requires forall id: int :: id in desired ==> id >= 0 && id in repo.channels
    modifies repo`links
    ensures OnlyLinksOf(check, old(repo.Abs()), repo.Abs())
    ensures Linked(old(repo.links), check) <= Linked(repo.links, check)
    ensures forall h :: h in Linked(repo.links, check) ==> h in Linked(old(repo.links), check) || h in desired
    ensures ok ==> forall h: nat :: h in desired ==> h in Linked(repo.links, check)
    ensures ok <==> forall h: nat :: h in desired ==> h !in faults && (h in Linked(old(repo.links), check) || check in repo.checks)
  {
    var todo := desired;
    while exists id: int :: id in todo
      invariant todo <= desired
      invariant OnlyLinksOf(check, old(repo.Abs()), repo.Abs())
      invariant Linked(old(repo.links), check) <= Linked(repo.links, check)
      invariant forall h :: h in Linked(repo.links, check) ==> h in Linked(old(repo.links), check) || h in desired - todo
      invariant forall h: nat :: h in desired - todo ==> h in Linked(repo.links, check)
      invariant forall h: nat :: h in desired - todo ==> h !in faults && (h in Linked(old(repo.links), check) || check in repo.checks)
      decreases |todo|
    {
      var id: int :| id in todo;
      var h: nat := id;
      LinkedAfter(repo.links, check, h);
      assert h in Linked(repo.links, check) <==> (check, h) in repo.links;
      hide Linked;
      var out := repo.AttachToCheck(check, h, id in faults);
      if out != Done {
        return false;
      }
      todo := todo - {id};
    }
    ok := true;
  }

  lemma ListedIds(db: Db, check: string)
    requires Sound(db)
    ensures forall h: nat :: h in Linked(db.links, check) <==> exists c :: c in ListChannels(db, check) && c.id == h
  {
    LinkedIsAttached(db, check);
    ListsAttachedOnce(db, check);
    hide ListChannels, Attached, Linked, Sound;
    var r := ListChannels(db, check);
    forall h: nat | h in Attached(db, check) ensures exists c :: c in r && c.id == h {
      var i :| 0 <= i < |r| && r[i].id == h;
      assert r[i] in r;
    }
  }

  /** What HandleAttachDetach promises of the links, given what was linked, what was wanted, and what is linked now. */
  ghost predicate Settled(was: set<nat>, wanted: set<nat>, now: set<nat>, ok: bool)
  {
    (ok ==> now == wanted) && was * wanted <= now <= was + wanted
  }

  /** No access of the two loops fails. */
  ghost predicate Unhindered(was: set<nat>, wanted: set<nat>, known: bool, faults: LinkFaults)
  {
    && (forall h :: h in was - wanted ==> h !in faults.detach)
    && (forall h :: h in wanted ==> h !in faults.attach)
    && (wanted <= was || known)
  }

  lemma DetachedThenAttached(was: set<nat>, mid: set<nat>, now: set<nat>, wanted: set<nat>, known: bool, faults: LinkFaults, ok: bool)
    requires was * wanted <= mid <= was && mid <= wanted && mid <= now <= mid + wanted
    requires ok ==> wanted <= now
    requires forall h :: h in was - wanted ==> h !in faults.detach
    requires ok <==> forall h :: h in wanted ==> h !in faults.attach && (h in mid || known)
    ensures Settled(was, wanted, now, ok) && (ok <==> Unhindered(was, wanted, known, faults))
  {
  }

  /** The two loops, once the current links are listed. */
  method Settle(repo: Database, check: string, current: seq<Channel>, desired: set<int>, ghost wanted: set<nat>, faults: LinkFaults)
    returns (ok: bool)
    requires forall h: nat :: h in desired <==> h in wanted
    requires forall id: int :: id in desired ==> id >= 0 && id in repo.channels
    requires forall h: nat :: h in Linked(repo.links, check) <==> exists c :: c in current && c.id == h
    modifies repo`links
    ensures OnlyLinksOf(check, old(repo.Abs()), repo.Abs())
    ensures Settled(Linked(old(repo.links), check), wanted, Linked(repo.links, check), ok)
    ensures ok <==> Unhindered(Linked(old(repo.links), check), wanted, check in repo.checks, faults)
  {
    ghost var was := Linked(repo.links, check);
    assert forall c :: c in current ==> c.id in was;
    hide Linked, Database.Abs;
    ok := DetachOthers(repo, check, current, desired, faults.detach);
    if !ok {
      return;
    }
    ghost var mid := Linked(repo.links, check);
    ok := AttachAll(repo, check, desired, faults.attach);
    DetachedThenAttached(was, mid, Linked(repo.links, check), wanted, check in repo.checks, faults, ok);
  }

  lemma WantedSpelled(form: seq<string>, channels: set<nat>, lookupFaults: set<int>)
    ensures forall h: nat :: h in Wanted(form, channels, lookupFaults) <==>
              h in channels && h !in lookupFaults && exists s :: s in form && Spells(s, h)
  {
    SubmittedSpelled(form);
    hide Submitted, Spells;
  }

  /** What is settled, link by link. */
  lemma SettledLinks(was: set<(string, nat)>, links: set<(string, nat)>, check: string, wanted: set<nat>, ok: bool)
    requires Settled(Linked(was, check), wanted, Linked(links, check), ok)
    ensures ok ==> forall h: nat :: (check, h) in links <==> h in wanted
    ensures forall h: nat :: (check, h) in links && (check, h) !in was ==> h in wanted
    ensures forall h: nat :: (check, h) in was && (check, h) !in links ==> h !in wanted
  {
    forall h: nat
      ensures (check, h) in links <==> h in Linked(links, check)
      ensures (check, h) in was <==> h in Linked(was, check)
    {
    }
    hide Linked;
  }

  /** HandleAttachDetach, with nothing else touching the check's links meanwhile. On success the check is linked to
      exactly the wanted channels; on failure to something between what both lists have and what either has. Success
      comes exactly when the check is cached and no access it makes fails. The store keeps its foreign keys, as it always
      does (Integrity.AlwaysSound). */
  method HandleAttachDetach(cache: StateCache, check: string, form: seq<string>, faults: LinkFaults) returns (ok: bool)
    requires cache.Valid() && Sound(cache.repo.Abs())
    modifies cache.repo`links
    ensures OnlyLinksOf(check, old(cache.repo.Abs()), cache.repo.Abs())
    ensures var was, now := Linked(old(cache.repo.links), check), Linked(cache.repo.links, check);
            var wanted := Wanted(form, cache.repo.channels.Keys, faults.lookup);
            && Settled(was, wanted, now, ok)
            && (ok <==> check in cache.Map() && !faults.list && Unhindered(was, wanted, check in cache.repo.checks, faults))
    ensures ok ==> forall h: nat :: (check, h) in cache.repo.links <==>
              h in cache.repo.channels && h !in faults.lookup && exists s :: s in form && Spells(s, h)
    ensures !ok ==> forall h: nat :: (check, h) in cache.repo.links && (check, h) !in old(cache.repo.links) ==>
              h in cache.repo.channels && h !in faults.lookup && exists s :: s in form && Spells(s, h)
    ensures !ok ==> forall h: nat :: (check, h) in old(cache.repo.links) && (check, h) !in cache.repo.links ==>
              !(h in cache.repo.channels && h !in faults.lookup && exists s :: s in form && Spells(s, h))
  {
    var c := cache.Get(check);
    if c == null {
      return false;
    }
    var repo := cache.repo;
    ListedIds(repo.Abs(), check);
    var desired := ParseIds(form);
    desired := DropUnknown(repo, desired, faults.lookup);
    ghost var wanted := Wanted(form, repo.channels.Keys, faults.lookup);
    assert forall h: nat :: h in desired <==> h in wanted;
    hide *;
    WantedSpelled(form, repo.channels.Keys, faults.lookup);
    var current := repo.ListAttached(check, faults.list);
    if current.None? {
      return false;
    }
    ok := Settle(repo, check, current.value, desired, wanted, faults);
    SettledLinks(old(repo.links), repo.links, check, wanted, ok);
  }
}
