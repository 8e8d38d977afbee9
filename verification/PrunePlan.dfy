/** Which stored backup objects the retention planner deletes. */
module PrunePlan {
  import opened Records

  /** An object of the inventory; `created` is its parsed creation time. */
  datatype Item = Item(name: string, created: int)

  const BACKUP_SUFFIX := ".dump.age"
  const CHECKSUM_SUFFIX := ".sha256"

  predicate EndsWith(s: string, suffix: string) {
    |suffix| <= |s| && s[|s| - |suffix|..] == suffix
  }

  predicate IsBackup(name: string) {
    EndsWith(name, BACKUP_SUFFIX)
  }

  predicate IsChecksum(name: string) {
    EndsWith(name, BACKUP_SUFFIX + CHECKSUM_SUFFIX)
  }

  function ChecksumOf(name: string): (text: string) {
    name + CHECKSUM_SUFFIX
  }

  /** `removesuffix(".sha256")` of a checksum's name. */
  function BackupOf(name: string): (text: string)
    requires IsChecksum(name)
  {
    name[..|name| - |CHECKSUM_SUFFIX|]
  }

  lemma ChecksumNames(name: string)
    ensures IsBackup(name) ==> IsChecksum(ChecksumOf(name)) && BackupOf(ChecksumOf(name)) == name
    ensures IsChecksum(name) ==> IsBackup(BackupOf(name)) && ChecksumOf(BackupOf(name)) == name
    ensures !(IsBackup(name) && IsChecksum(name))
  {
    var long := BACKUP_SUFFIX + CHECKSUM_SUFFIX;
    assert |long| == 16 && long[15] == '6' && BACKUP_SUFFIX[8] == 'e';
    if IsBackup(name) {
      var c := ChecksumOf(name);
      assert c[|c| - 16..] == name[|name| - 9..] + CHECKSUM_SUFFIX;
      assert c[..|c| - 7] == name;
      assert name[|name| - 1] == name[|name| - 9..][8];
    }
    if IsChecksum(name) {
      var b := BackupOf(name);
      assert b[|b| - 9..] == name[|name| - 16..][..9];
      assert long[..9] == BACKUP_SUFFIX && long[9..] == CHECKSUM_SUFFIX;
      assert name[|name| - 7..] == name[|name| - 16..][9..];
      assert b + name[|name| - 7..] == name;
      assert name[|name| - 1] == name[|name| - 16..][15];
    }
  }

  // ---------------------------------------------------------------- newest first

  predicate NewestFirst(s: seq<Item>) {
    forall i, j :: 0 <= i < j < |s| ==> s[i].created >= s[j].created
  }

  function Names(s: seq<Item>): (result: set<string>) {
    set i | 0 <= i < |s| :: s[i].name
  }

  /** Behind everything at least as new: equal times keep their order. */
  function Insert(s: seq<Item>, x: Item): (result: seq<Item>) {
    if s == [] then [x]
    else if s[|s| - 1].created >= x.created then s + [x]
    else Insert(s[..|s| - 1], x) + [s[|s| - 1]]
  }

  function EncryptedObjects(items: seq<Item>): (result: seq<Item>) {
    if items == [] then []
    else
      var sorted := EncryptedObjects(items[..|items| - 1]);
      var x := items[|items| - 1];
      if IsBackup(x.name) then Insert(sorted, x) else sorted
  }

  lemma {:induction false} InsertHolds(s: seq<Item>, x: Item)
    ensures multiset(Insert(s, x)) == multiset(s) + multiset{x}
  {
    if s != [] && s[|s| - 1].created < x.created {
      var n := |s| - 1;
      InsertHolds(s[..n], x);
      assert s == s[..n] + [s[n]];
    }
  }

  lemma InsertMembers(s: seq<Item>, x: Item)
    ensures forall y :: y in Insert(s, x) <==> y in s || y == x
  {
    InsertHolds(s, x);
    forall y ensures y in Insert(s, x) <==> y in s || y == x {
      assert y in Insert(s, x) <==> y in multiset(Insert(s, x));
    }
  }

  lemma {:induction false} InsertSorts(s: seq<Item>, x: Item)
    requires NewestFirst(s)
    ensures NewestFirst(Insert(s, x))
  {
    if s != [] && s[|s| - 1].created < x.created {
      var n := |s| - 1;
      InsertSorts(s[..n], x);
      InsertMembers(s[..n], x);
      assert forall y :: y in s[..n] ==> y.created >= s[n].created;
      SortedLast(Insert(s[..n], x), s[n]);
    }
  }

  lemma SortedLast(s: seq<Item>, x: Item)
    requires NewestFirst(s) && forall y :: y in s ==> y.created >= x.created
    ensures NewestFirst(s + [x])
  {}

  function Backups(items: seq<Item>): (result: seq<Item>) {
    if items == [] then []
    else
      Backups(items[..|items| - 1]) + (if IsBackup(items[|items| - 1].name) then [items[|items| - 1]] else [])
  }

  lemma {:induction false} EncryptedHolds(items: seq<Item>)
    ensures multiset(EncryptedObjects(items)) == multiset(Backups(items))
  {
    if items != [] {
      var n := |items| - 1;
      EncryptedHolds(items[..n]);
      InsertHolds(EncryptedObjects(items[..n]), items[n]);
    }
  }

  lemma {:induction false} BackupsAre(items: seq<Item>)
    ensures forall y :: y in Backups(items) <==> y in items && IsBackup(y.name)
  {
    if items != [] {
      BackupsAre(items[..|items| - 1]);
      assert items == items[..|items| - 1] + [items[|items| - 1]];
    }
  }

  lemma {:induction false} EncryptedDescends(items: seq<Item>)
    ensures NewestFirst(EncryptedObjects(items))
  {
    if items != [] {
      EncryptedDescends(items[..|items| - 1]);
      InsertSorts(EncryptedObjects(items[..|items| - 1]), items[|items| - 1]);
    }
  }

  /** The listing holds exactly the inventory's backups, newest first. */
  lemma EncryptedIsSorted(items: seq<Item>)
    ensures var b := EncryptedObjects(items);
            && NewestFirst(b) && multiset(b) == multiset(Backups(items))
            && forall y :: y in b <==> y in items && IsBackup(y.name)
  {
    EncryptedDescends(items);
    EncryptedHolds(items);
    BackupsAre(items);
    var b := EncryptedObjects(items);
    forall y ensures y in b <==> y in items && IsBackup(y.name) {
      assert y in b <==> y in multiset(b);
      assert y in Backups(items) <==> y in multiset(Backups(items));
    }
  }

  /** The objects created at one moment, in order. */
  function At(s: seq<Item>, t: int): (result: seq<Item>) {
    if s == [] then []
    else At(s[..|s| - 1], t) + (if s[|s| - 1].created == t then [s[|s| - 1]] else [])
  }

  lemma AtLast(s: seq<Item>, x: Item, t: int)
    ensures At(s + [x], t) == At(s, t) + (if x.created == t then [x] else [])
  {
    assert (s + [x])[..|s|] == s;
  }

  lemma InsertBeforeIsStable(s: seq<Item>, y: Item, x: Item, t: int)
    requires y.created < x.created && At(Insert(s, x), t) == At(s, t) + (if x.created == t then [x] else [])
    ensures At(Insert(s, x) + [y], t) == At(s + [y], t) + (if x.created == t then [x] else [])
  {
    AtLast(Insert(s, x), y, t);
    AtLast(s, y, t);
  }

  lemma {:induction false} InsertIsStable(s: seq<Item>, x: Item, t: int)
    ensures At(Insert(s, x), t) == At(s, t) + (if x.created == t then [x] else [])
  {
    if s == [] {
      AtLast([], x, t);
    } else if s[|s| - 1].created >= x.created {
      AtLast(s, x, t);
    } else {
      var most, y := s[..|s| - 1], s[|s| - 1];
      InsertIsStable(most, x, t);
      InsertBeforeIsStable(most, y, x, t);
      assert most + [y] == s;
    }
  }

  /** Backups created at the same moment stay in inventory order. */
  lemma {:induction false} EqualTimesKeepOrder(items: seq<Item>, t: int)
    ensures At(EncryptedObjects(items), t) == At(Backups(items), t)
  {
    if items != [] {
      var n := |items| - 1;
      EqualTimesKeepOrder(items[..n], t);
      InsertIsStable(EncryptedObjects(items[..n]), items[n], t);
      AtLast(Backups(items[..n]), items[n], t);
      assert Backups(items[..n]) + [] == Backups(items[..n]);
    }
  }

  predicate Unique(s: seq<Item>) {
    forall i, j :: 0 <= i < j < |s| ==> s[i].name != s[j].name
  }

  lemma {:induction false} InsertKeepsUnique(s: seq<Item>, x: Item)
    requires Unique(s) && forall y :: y in s ==> y.name != x.name
    ensures Unique(Insert(s, x)) && forall y :: y in Insert(s, x) ==> y in s || y == x
  {
    if s != [] {
      var n := |s| - 1;
      if s[n].created < x.created {
        InsertKeepsUnique(s[..n], x);
        assert forall y :: y in s[..n] ==> y in s && y.name != s[n].name;
      }
    }
  }

  lemma {:induction false} EncryptedIsUnique(items: seq<Item>)
    requires Unique(items)
    ensures Unique(EncryptedObjects(items))
  {
    if items != [] {
      var n := |items| - 1;
      EncryptedIsUnique(items[..n]);
      EncryptedIsSorted(items[..n]);
      if IsBackup(items[n].name) { InsertKeepsUnique(EncryptedObjects(items[..n]), items[n]); }
    }
  }

  // ---------------------------------------------------------------- what is kept

  /** The first backup of its week, outside the daily ones. */
  predicate OpensWeek(week: int -> int, b: seq<Item>, daily: nat, i: nat)
    requires i < |b|
  {
    daily <= i && forall j :: 0 <= j < i ==> week(b[j].created) != week(b[i].created)
  }

  /** How many weeks open before position i. */
  function WeeksBefore(week: int -> int, b: seq<Item>, daily: nat, i: nat): (n: nat)
    requires i <= |b|
  {
    if i == 0 then 0
    else WeeksBefore(week, b, daily, i - 1) + (if OpensWeek(week, b, daily, i - 1) then 1 else 0)
  }

  predicate KeptAt(week: int -> int, b: seq<Item>, daily: nat, weekly: nat, i: nat)
    requires i < |b|
  {
    i < daily || (OpensWeek(week, b, daily, i) && WeeksBefore(week, b, daily, i) < weekly)
  }

  predicate AllKept(week: int -> int, b: seq<Item>, daily: nat, weekly: nat) {
    forall k :: 0 <= k < |b| ==> KeptAt(week, b, daily, weekly, k)
  }

  /** The names kept among the first n backups. */
  function KeptNames(week: int -> int, b: seq<Item>, daily: nat, weekly: nat, n: nat): (result: set<string>)
    requires n <= |b|
  {
    set i | 0 <= i < n && KeptAt(week, b, daily, weekly, i) :: b[i].name
  }

  function Keep(week: int -> int, items: seq<Item>, daily: nat, weekly: nat): (result: set<string>) {
    var b := EncryptedObjects(items);
    KeptNames(week, b, daily, weekly, |b|)
  }

  /** A backup goes when it is not kept, a checksum when its backup is not kept, nothing else. */
  predicate Doomed(week: int -> int, items: seq<Item>, daily: nat, weekly: nat, name: string) {
    && name in Names(items)
    && ((IsBackup(name) && name !in Keep(week, items, daily, weekly))
        || (IsChecksum(name) && BackupOf(name) !in Keep(week, items, daily, weekly)))
  }

  // ---------------------------------------------------------------- the planner

  method ChooseKept(week: int -> int, b: seq<Item>, daily: nat, weekly: nat) returns (keep: set<string>)
    ensures keep == KeptNames(week, b, daily, weekly, |b|)
  {
    var first := if daily <= |b| then daily else |b|;
    keep := set i | 0 <= i < first :: b[i].name;
    var representedWeeks := set i | 0 <= i < first :: week(b[i].created);
    var weeklyKept := 0;
    NoWeekAmongDaily(week, b, daily, first);
    for i := first to |b|
      invariant keep == KeptNames(week, b, daily, weekly, i)
      invariant weeklyKept == Min(weekly, WeeksBefore(week, b, daily, i))
      invariant weeklyKept < weekly ==> representedWeeks == WeeksOf(week, b, i)
    {
      var w := week(b[i].created);
      KeptNamesNext(week, b, daily, weekly, i);
      if w in representedWeeks || weeklyKept >= weekly {
        assert weeklyKept < weekly ==> WeeksOf(week, b, i + 1) == WeeksOf(week, b, i);
        continue;
      }
      assert w !in WeeksOf(week, b, i);
      keep := keep + {b[i].name};
      representedWeeks := representedWeeks + {w};
      weeklyKept := weeklyKept + 1;
      assert WeeksOf(week, b, i + 1) == WeeksOf(week, b, i) + {w};
    }
  }

  function WeeksOf(week: int -> int, b: seq<Item>, n: nat): (result: set<int>)
    requires n <= |b|
  {
    set i | 0 <= i < n :: week(b[i].created)
  }

  lemma KeptNamesNext(week: int -> int, b: seq<Item>, daily: nat, weekly: nat, i: nat)
    requires i < |b|
    ensures KeptNames(week, b, daily, weekly, i + 1) ==
            KeptNames(week, b, daily, weekly, i) + (if KeptAt(week, b, daily, weekly, i) then {b[i].name} else {})
  {}

  lemma {:induction false} NoWeekAmongDaily(week: int -> int, b: seq<Item>, daily: nat, n: nat)
    requires n <= daily && n <= |b|
    ensures WeeksBefore(week, b, daily, n) == 0
  {
    if n > 0 { NoWeekAmongDaily(week, b, daily, n - 1); }
  }

  method DeletionPlan(week: int -> int, items: seq<Item>, daily: nat, weekly: nat) returns (plan: set<string>)
    ensures forall name :: name in plan <==> Doomed(week, items, daily, weekly, name)
  {
    var backups := EncryptedObjects(items);
    var keep := ChooseKept(week, backups, daily, weekly);
    var available := Names(items);
    plan := Discard(backups, keep, available);
    var encryptedNames := Names(backups);
    var orphans := Orphans(encryptedNames, available);
    plan := plan + orphans;
    forall name ensures name in plan <==> Doomed(week, items, daily, weekly, name) {
      DoomedIs(week, items, daily, weekly, name);
    }
  }

  /** The first deletion loop: each backup that is not kept, with its checksum if there is one. */
  method Discard(backups: seq<Item>, keep: set<string>, available: set<string>) returns (plan: set<string>)
    ensures forall name :: name in plan <==> Discarded(backups, keep, available, name)
  {
    plan := {};
    for i := 0 to |backups|
      invariant forall name :: name in plan <==> Discarded(backups[..i], keep, available, name)
    {
      var name := backups[i].name;
      DiscardedNext(backups, keep, available, i);
      if name !in keep {
        plan := plan + {name};
        if ChecksumOf(name) in available {
          plan := plan + {ChecksumOf(name)};
        }
      }
    }
    assert backups[..|backups|] == backups;
  }

  /** The second: each checksum whose backup is not there. */
  method Orphans(encryptedNames: set<string>, available: set<string>) returns (orphans: set<string>)
    ensures forall name :: name in orphans <==> name in available && Orphan(encryptedNames, name)
  {
    orphans := {};
    var todo := available;
    while todo != {}
      invariant todo <= available
      invariant forall name :: name in orphans <==> name in available - todo && Orphan(encryptedNames, name)
      decreases |todo|
    {
      var name :| name in todo;
      todo := todo - {name};
      if IsChecksum(name) && BackupOf(name) !in encryptedNames {
        orphans := orphans + {name};
      }
    }
  }

  predicate Discarded(b: seq<Item>, keep: set<string>, available: set<string>, name: string) {
    exists x :: x in b && x.name !in keep && (name == x.name || (name == ChecksumOf(x.name) && name in available))
  }

  predicate Orphan(encryptedNames: set<string>, name: string) {
    IsChecksum(name) && BackupOf(name) !in encryptedNames
  }

  lemma DiscardedNext(b: seq<Item>, keep: set<string>, available: set<string>, i: nat)
    requires i < |b|
    ensures forall name :: Discarded(b[..i + 1], keep, available, name) <==>
              Discarded(b[..i], keep, available, name)
              || (b[i].name !in keep && (name == b[i].name || (name == ChecksumOf(b[i].name) && name in available)))
  {
    assert b[..i + 1] == b[..i] + [b[i]];
  }

  lemma DoomedIs(week: int -> int, items: seq<Item>, daily: nat, weekly: nat, name: string)
    ensures var b := EncryptedObjects(items);
            Doomed(week, items, daily, weekly, name) <==>
            Discarded(b, Keep(week, items, daily, weekly), Names(items), name)
            || (name in Names(items) && Orphan(Names(b), name))
  {
    var b := EncryptedObjects(items);
    EncryptedIsSorted(items);
    ChecksumNames(name);
    forall x | x in b
        ensures IsChecksum(ChecksumOf(x.name)) && BackupOf(ChecksumOf(x.name)) == x.name && x.name in Names(items) {
      ChecksumNames(x.name);
    }
    if Doomed(week, items, daily, weekly, name) {
      if IsBackup(name) {
        var i :| 0 <= i < |items| && items[i].name == name;
        assert items[i] in b;
      } else if BackupOf(name) in Names(b) {
        var i :| 0 <= i < |b| && b[i].name == BackupOf(name);
        assert b[i] in b;
      }
    }
  }

  // ---------------------------------------------------------------- what the rule means

  /** A checksum is deleted exactly when its backup is deleted or absent. */
  lemma ChecksumFollowsBackup(week: int -> int, items: seq<Item>, daily: nat, weekly: nat, name: string)
    requires IsChecksum(name) && name in Names(items)
    ensures Doomed(week, items, daily, weekly, name) <==>
            (BackupOf(name) !in Names(items) || Doomed(week, items, daily, weekly, BackupOf(name)))
  {
    ChecksumNames(name);
    EncryptedIsSorted(items);
    var b := EncryptedObjects(items);
    if BackupOf(name) in Keep(week, items, daily, weekly) {
      var i :| 0 <= i < |b| && KeptAt(week, b, daily, weekly, i) && b[i].name == BackupOf(name);
      assert b[i] in b;
    }
  }

  /** Only backups and their checksums are ever deleted. */
  lemma OthersAreSpared(week: int -> int, items: seq<Item>, daily: nat, weekly: nat, name: string)
    requires Doomed(week, items, daily, weekly, name)
    ensures name in Names(items) && (IsBackup(name) != IsChecksum(name))
  {
    ChecksumNames(name);
  }

  /** A kept weekly backup is the newest of its week. */
  lemma WeeklyIsNewest(week: int -> int, items: seq<Item>, daily: nat, weekly: nat, i: nat, x: Item)
    requires x in items && IsBackup(x.name)
    requires daily <= i < |EncryptedObjects(items)| && KeptAt(week, EncryptedObjects(items), daily, weekly, i)
    requires week(x.created) == week(EncryptedObjects(items)[i].created)
    ensures x.created <= EncryptedObjects(items)[i].created
  {
    var b := EncryptedObjects(items);
    EncryptedIsSorted(items);
    assert x in b;
    var j :| 0 <= j < |b| && b[j] == x;
    FirstIsNewest(week, b, daily, i, j);
  }

  lemma FirstIsNewest(week: int -> int, b: seq<Item>, daily: nat, i: nat, j: nat)
    requires NewestFirst(b) && i < |b| && j < |b|
    requires OpensWeek(week, b, daily, i) && week(b[j].created) == week(b[i].created)
    ensures b[j].created <= b[i].created
  {}

  /** A backup is dropped only if a kept one of its week is at least as new, or all the weekly places
      went to backups at least as new. */
  lemma DroppedIsCovered(week: int -> int, items: seq<Item>, daily: nat, weekly: nat, i: nat)
    requires i < |EncryptedObjects(items)| && !KeptAt(week, EncryptedObjects(items), daily, weekly, i)
    ensures var b := EncryptedObjects(items);
            || (exists j :: 0 <= j < i && KeptAt(week, b, daily, weekly, j) &&
                            week(b[j].created) == week(b[i].created) && b[j].created >= b[i].created)
            || |KeptSet(week, b, daily, weekly, i)| == daily + weekly
  {
    var b := EncryptedObjects(items);
    EncryptedIsSorted(items);
    if WeeksBefore(week, b, daily, i) >= weekly {
      KeptCount(week, b, daily, weekly, i);
    } else {
      var j := FirstOfWeek(week, b, week(b[i].created), i);
      WeeksGrow(week, b, daily, j, i);
    }
  }

  function KeptSet(week: int -> int, b: seq<Item>, daily: nat, weekly: nat, n: nat): (result: set<int>)
    requires n <= |b|
  {
    set i | 0 <= i < n && KeptAt(week, b, daily, weekly, i)
  }

  lemma FirstOfWeek(week: int -> int, b: seq<Item>, w: int, n: nat) returns (j: nat)
    requires n < |b| && week(b[n].created) == w
    ensures j <= n && week(b[j].created) == w && forall k :: 0 <= k < j ==> week(b[k].created) != w
  {
    j := 0;
    while week(b[j].created) != w
      invariant j <= n && forall k :: 0 <= k < j ==> week(b[k].created) != w
      decreases n - j
    {
      j := j + 1;
    }
  }

  lemma {:induction false} WeeksGrow(week: int -> int, b: seq<Item>, daily: nat, i: nat, j: nat)
    requires i <= j <= |b|
    ensures WeeksBefore(week, b, daily, i) <= WeeksBefore(week, b, daily, j)
  {
    if i < j { WeeksGrow(week, b, daily, i, j - 1); }
  }

  /** The kept backups among the first n number the daily ones plus the weeks, up to the weekly count. */
  lemma {:induction false} KeptCount(week: int -> int, b: seq<Item>, daily: nat, weekly: nat, n: nat)
    requires n <= |b|
    ensures |KeptSet(week, b, daily, weekly, n)| == Min(n, daily) + Min(weekly, WeeksBefore(week, b, daily, n))
  {
    if n == 0 {
      assert KeptSet(week, b, daily, weekly, n) == {};
    } else {
      KeptCount(week, b, daily, weekly, n - 1);
      if n - 1 < daily { NoWeekAmongDaily(week, b, daily, n); NoWeekAmongDaily(week, b, daily, n - 1); }
      KeptOneMore(week, b, daily, weekly, n);
    }
  }

  lemma KeptOneMore(week: int -> int, b: seq<Item>, daily: nat, weekly: nat, n: nat)
    requires 0 < n <= |b|
    ensures |KeptSet(week, b, daily, weekly, n)| ==
            |KeptSet(week, b, daily, weekly, n - 1)| + (if KeptAt(week, b, daily, weekly, n - 1) then 1 else 0)
  {
    var before := KeptSet(week, b, daily, weekly, n - 1);
    assert KeptSet(week, b, daily, weekly, n) ==
           before + (if KeptAt(week, b, daily, weekly, n - 1) then {n - 1} else {});
  }

  // ---------------------------------------------------------------- planning again deletes nothing

  function Survivors(items: seq<Item>, plan: set<string>): (result: seq<Item>) {
    if items == [] then []
    else
      Survivors(items[..|items| - 1], plan) + (if items[|items| - 1].name in plan then [] else [items[|items| - 1]])
  }

  lemma SurvivorsLast(s: seq<Item>, x: Item, plan: set<string>)
    ensures Survivors(s + [x], plan) == Survivors(s, plan) + (if x.name in plan then [] else [x])
  {
    assert (s + [x])[..|s|] == s;
  }

  lemma {:induction false} SurvivorsAre(s: seq<Item>, plan: set<string>)
    ensures forall y :: y in Survivors(s, plan) <==> y in s && y.name !in plan
  {
    if s != [] {
      SurvivorsAre(s[..|s| - 1], plan);
      assert s == s[..|s| - 1] + [s[|s| - 1]];
    }
  }

  lemma InsertSurvivesAtEnd(s: seq<Item>, x: Item, plan: set<string>)
    requires NewestFirst(s) && s != [] && s[|s| - 1].created >= x.created
    ensures Survivors(s + [x], plan) == if x.name in plan then Survivors(s, plan) else Insert(Survivors(s, plan), x)
  {
    SurvivorsLast(s, x, plan);
    SurvivorsAre(s, plan);
    NoneOlder(s, Survivors(s, plan), x);
    InsertLast(Survivors(s, plan), x);
    StrikeNone(Survivors(s, plan));
  }

  lemma {:induction false} InsertSurvives(s: seq<Item>, x: Item, plan: set<string>)
    requires NewestFirst(s)
    ensures Survivors(Insert(s, x), plan) ==
            if x.name in plan then Survivors(s, plan) else Insert(Survivors(s, plan), x)
  {
    if s == [] {
      SurvivorsLast([], x, plan);
    } else if s[|s| - 1].created >= x.created {
      InsertSurvivesAtEnd(s, x, plan);
    } else {
      var most, y := s[..|s| - 1], s[|s| - 1];
      InsertSurvives(most, x, plan);
      InsertSurvivesBefore(s, most, y, x, plan);
    }
  }

  lemma NoneOlder(s: seq<Item>, some: seq<Item>, x: Item)
    requires NewestFirst(s) && s != [] && s[|s| - 1].created >= x.created && forall y :: y in some ==> y in s
    ensures forall y :: y in some ==> y.created >= x.created
  {
    forall y | y in some ensures y.created >= x.created {
      var i :| 0 <= i < |s| && s[i] == y;
    }
  }

  lemma InsertLast(s: seq<Item>, x: Item)
    requires forall y :: y in s ==> y.created >= x.created
    ensures Insert(s, x) == s + [x]
  {}

  lemma InsertBefore(s: seq<Item>, y: Item, x: Item)
    requires y.created < x.created
    ensures Insert(s + [y], x) == Insert(s, x) + [y]
  {
    assert (s + [y])[..|s|] == s;
  }

  lemma InsertSurvivesBefore(s: seq<Item>, most: seq<Item>, y: Item, x: Item, plan: set<string>)
    requires s == most + [y] && y.created < x.created
    requires Survivors(Insert(most, x), plan) ==
             if x.name in plan then Survivors(most, plan) else Insert(Survivors(most, plan), x)
    ensures Survivors(Insert(s, x), plan) ==
            if x.name in plan then Survivors(s, plan) else Insert(Survivors(s, plan), x)
  {
    InsertBefore(most, y, x);
    SurvivorsLast(Insert(most, x), y, plan);
    SurvivorsLast(most, y, plan);
    if y.name in plan {
      StrikeNone(Survivors(Insert(most, x), plan));
      StrikeNone(Survivors(most, plan));
    } else {
      InsertBefore(Survivors(most, plan), y, x);
    }
  }

  /** Listing the survivors is the same as striking the deleted names from the listing. */
  lemma {:induction false} ListingSurvives(items: seq<Item>, plan: set<string>)
    ensures EncryptedObjects(Survivors(items, plan)) == Survivors(EncryptedObjects(items), plan)
  {
    if items != [] {
      var n := |items| - 1;
      var x := items[n];
      ListingSurvives(items[..n], plan);
      ListingSurvivesLast(items[..n], x, items, plan);
    }
  }

  lemma ListingSurvivesLast(most: seq<Item>, x: Item, items: seq<Item>, plan: set<string>)
    requires items == most + [x] && EncryptedObjects(Survivors(most, plan)) == Survivors(EncryptedObjects(most), plan)
    ensures EncryptedObjects(Survivors(items, plan)) == Survivors(EncryptedObjects(items), plan)
  {
    EncryptedIsSorted(most);
    InsertSurvives(EncryptedObjects(most), x, plan);
    SurvivorsLast(most, x, plan);
    ListingLast(most, x);
    ListingLast(Survivors(most, plan), x);
    StrikeNone(Survivors(most, plan));
  }

  lemma StrikeNone(s: seq<Item>)
    ensures s + [] == s
  {}

  lemma ListingLast(s: seq<Item>, x: Item)
    ensures EncryptedObjects(s + [x]) ==
            if IsBackup(x.name) then Insert(EncryptedObjects(s), x) else EncryptedObjects(s)
  {
    assert (s + [x])[..|s|] == s;
  }

  /** The kept ones among the first n backups, in order. */
  function KeptSeq(week: int -> int, b: seq<Item>, daily: nat, weekly: nat, n: nat): (result: seq<Item>)
    requires n <= |b|
  {
    if n == 0 then []
    else KeptSeq(week, b, daily, weekly, n - 1) + (if KeptAt(week, b, daily, weekly, n - 1) then [b[n - 1]] else [])
  }

  lemma {:induction false} WeeksBeforeOfPrefix(week: int -> int, b: seq<Item>, c: seq<Item>, daily: nat, i: nat)
    requires i <= |b| && b <= c
    ensures WeeksBefore(week, c, daily, i) == WeeksBefore(week, b, daily, i)
  {
    if i > 0 { WeeksBeforeOfPrefix(week, b, c, daily, i - 1); }
  }

  lemma KeptAtOfPrefix(week: int -> int, b: seq<Item>, c: seq<Item>, daily: nat, weekly: nat, i: nat)
    requires i < |b| && b <= c
    ensures KeptAt(week, c, daily, weekly, i) == KeptAt(week, b, daily, weekly, i)
  {
    WeeksBeforeOfPrefix(week, b, c, daily, i);
  }

  lemma {:induction false} WeeksAtMost(week: int -> int, b: seq<Item>, daily: nat, i: nat)
    requires i <= |b|
    ensures WeeksBefore(week, b, daily, i) <= Max(0, i - daily)
  {
    if i > 0 { WeeksAtMost(week, b, daily, i - 1); }
  }

  lemma KeptSeqNext(week: int -> int, b: seq<Item>, daily: nat, weekly: nat, n: nat)
    requires 0 < n <= |b|
    ensures b[..n] == b[..n - 1] + [b[n - 1]]
    ensures Min(n, daily) == Min(n - 1, daily) + (if n - 1 < daily then 1 else 0)
  {}

  /** In the list of kept backups every position is kept again. */
  lemma {:induction false} KeptAgain(week: int -> int, b: seq<Item>, daily: nat, weekly: nat, n: nat)
    requires n <= |b|
    ensures var s := KeptSeq(week, b, daily, weekly, n);
            && (forall y :: y in s ==> y in b[..n])
            && |s| <= Min(n, daily) + WeeksBefore(week, b, daily, n)
            && (n <= daily ==> |s| == n)
            && AllKept(week, s, daily, weekly)
  {
    if n > 0 {
      KeptAgain(week, b, daily, weekly, n - 1);
      var s := KeptSeq(week, b, daily, weekly, n - 1);
      KeptSeqNext(week, b, daily, weekly, n);
      if KeptAt(week, b, daily, weekly, n - 1) {
        NextKeptAgain(week, b, daily, weekly, n, s);
      } else {
        assert KeptSeq(week, b, daily, weekly, n) == s;
      }
    }
  }

  lemma NextKeptAgain(week: int -> int, b: seq<Item>, daily: nat, weekly: nat, n: nat, s: seq<Item>)
    requires 0 < n <= |b| && KeptAt(week, b, daily, weekly, n - 1)
    requires (forall y :: y in s ==> y in b[..n - 1]) && |s| <= Min(n - 1, daily) + WeeksBefore(week, b, daily, n - 1)
    requires n - 1 <= daily ==> |s| == n - 1
    requires AllKept(week, s, daily, weekly)
    ensures AllKept(week, s + [b[n - 1]], daily, weekly)
  {
    var t := s + [b[n - 1]];
    forall k | 0 <= k < |s| ensures KeptAt(week, t, daily, weekly, k) {
      KeptAtOfPrefix(week, s, t, daily, weekly, k);
    }
    if n - 1 >= daily && |s| >= daily {
      WeeksAtMost(week, t, daily, |s|);
      LaterWeekIsNew(week, b, daily, n - 1, s);
    }
  }

  lemma LaterWeekIsNew(week: int -> int, b: seq<Item>, daily: nat, i: nat, s: seq<Item>)
    requires i < |b| && OpensWeek(week, b, daily, i)
    requires forall y :: y in s ==> y in b[..i]
    ensures |s| >= daily ==> OpensWeek(week, s + [b[i]], daily, |s|)
  {
    forall j | 0 <= j < |s| ensures week(s[j].created) != week(b[i].created) {
      assert s[j] in s;
      var k :| 0 <= k < i && b[k] == s[j];
    }
  }

  lemma {:induction false} SurvivorsAreKept(week: int -> int, b: seq<Item>, daily: nat, weekly: nat,
                                            plan: set<string>, n: nat)
    requires n <= |b|
    requires forall i :: 0 <= i < |b| ==> (b[i].name in plan <==> !KeptAt(week, b, daily, weekly, i))
    ensures Survivors(b[..n], plan) == KeptSeq(week, b, daily, weekly, n)
  {
    if n > 0 {
      SurvivorsAreKept(week, b, daily, weekly, plan, n - 1);
      assert b[..n][..n - 1] == b[..n - 1];
    }
  }

  lemma KeptByName(week: int -> int, b: seq<Item>, daily: nat, weekly: nat, i: nat)
    requires Unique(b) && i < |b|
    ensures b[i].name in KeptNames(week, b, daily, weekly, |b|) <==> KeptAt(week, b, daily, weekly, i)
  {}

  /** A backup is deleted exactly when it is not kept. */
  lemma BackupIsDoomed(week: int -> int, items: seq<Item>, daily: nat, weekly: nat, name: string)
    requires IsBackup(name) && name in Names(items)
    ensures Doomed(week, items, daily, weekly, name) <==> name !in Keep(week, items, daily, weekly)
  {
    ChecksumNames(name);
  }

  lemma ListedIsBackup(items: seq<Item>, i: nat)
    requires i < |EncryptedObjects(items)|
    ensures IsBackup(EncryptedObjects(items)[i].name) && EncryptedObjects(items)[i].name in Names(items)
  {
    EncryptedIsSorted(items);
    assert EncryptedObjects(items)[i] in EncryptedObjects(items);
    NameOf(items, EncryptedObjects(items)[i]);
  }

  lemma PlanStrikesUnkept(week: int -> int, items: seq<Item>, daily: nat, weekly: nat, plan: set<string>, i: nat)
    requires Unique(items) && i < |EncryptedObjects(items)|
    requires forall name :: name in plan <==> Doomed(week, items, daily, weekly, name)
    ensures EncryptedObjects(items)[i].name in plan <==> !KeptAt(week, EncryptedObjects(items), daily, weekly, i)
  {
    EncryptedIsUnique(items);
    ListedIsBackup(items, i);
    BackupIsDoomed(week, items, daily, weekly, EncryptedObjects(items)[i].name);
    KeptByName(week, EncryptedObjects(items), daily, weekly, i);
  }

  /** Planning on the surviving inventory deletes nothing more. */
  lemma PlanIsFixpoint(week: int -> int, items: seq<Item>, daily: nat, weekly: nat, plan: set<string>, name: string)
    requires Unique(items)
    requires forall n :: n in plan <==> Doomed(week, items, daily, weekly, n)
    ensures !Doomed(week, Survivors(items, plan), daily, weekly, name)
  {
    var b := EncryptedObjects(items);
    var left := Survivors(items, plan);
    var b' := EncryptedObjects(left);
    ListingSurvives(items, plan);
    forall i | 0 <= i < |b| ensures b[i].name in plan <==> !KeptAt(week, b, daily, weekly, i) {
      PlanStrikesUnkept(week, items, daily, weekly, plan, i);
    }
    assert b[..|b|] == b;
    SurvivorsAreKept(week, b, daily, weekly, plan, |b|);
    KeptAgain(week, b, daily, weekly, |b|);
    NothingDoomed(week, items, daily, weekly, plan, name);
  }

  lemma NothingDoomed(week: int -> int, items: seq<Item>, daily: nat, weekly: nat, plan: set<string>, name: string)
    requires forall n :: n in plan <==> Doomed(week, items, daily, weekly, n)
    requires AllKept(week, EncryptedObjects(Survivors(items, plan)), daily, weekly)
    ensures !Doomed(week, Survivors(items, plan), daily, weekly, name)
  {
    var left := Survivors(items, plan);
    if name in Names(left) {
      var i :| 0 <= i < |left| && left[i].name == name;
      assert left[i] in left;
      SurvivorsAre(items, plan);
      ChecksumNames(name);
      if IsBackup(name) {
        StillKept(week, left, daily, weekly, name);
      } else if IsChecksum(name) {
        NameOf(items, left[i]);
        ChecksumFollowsBackup(week, items, daily, weekly, name);
        assert name !in plan;
        BackupSurvives(items, plan, BackupOf(name));
        StillKept(week, left, daily, weekly, BackupOf(name));
      }
    }
  }

  lemma NameOf(s: seq<Item>, x: Item)
    requires x in s
    ensures x.name in Names(s)
  {}

  lemma BackupSurvives(items: seq<Item>, plan: set<string>, name: string)
    requires name in Names(items) && name !in plan
    ensures name in Names(Survivors(items, plan))
  {
    SurvivorsAre(items, plan);
    var j :| 0 <= j < |items| && items[j].name == name;
    assert items[j] in items;
    NameOf(Survivors(items, plan), items[j]);
  }

  lemma StillKept(week: int -> int, left: seq<Item>, daily: nat, weekly: nat, name: string)
    requires name in Names(left) && IsBackup(name) && AllKept(week, EncryptedObjects(left), daily, weekly)
    ensures name in Keep(week, left, daily, weekly)
  {
    EncryptedIsSorted(left);
    var b := EncryptedObjects(left);
    var i :| 0 <= i < |left| && left[i].name == name;
    assert left[i] in left && left[i] in b;
    var k :| 0 <= k < |b| && b[k] == left[i];
    assert KeptAt(week, b, daily, weekly, k);
  }
}
