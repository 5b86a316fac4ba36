/** The saved host profiles (profiles_manager.go): reading one, saving with
    defaults and upsert by id, deleting, importing an export file with id
    de-duplication, and listing sorted by name.

    The encrypted hosts file is modelled by what it decrypts to: whether it
    exists and the hosts file record in it. Reading, decrypting, encrypting
    and writing are outside the model; whether each of them fails is a
    parameter, as are the fresh UUIDs and the current time. */
module Profiles {
  import opened Outcome
  import opened Text

  datatype AuthInfo = AuthInfo(authType: string, password: string, keyPem: string, passphrase: string)

  /** One saved host. */
  datatype HostProfile = HostProfile(
    id: string, name: string, host: string, port: int, username: string, auth: AuthInfo,
    keepAliveSec: int, timeoutSec: int, cols: int, rows: int,
    gatewayHost: string, gatewayPort: int, gatewayUser: string, gatewayAuth: string,
    gatewayPassword: string, gatewayKeyPem: string, gatewayPassphrase: string,
    tags: seq<string>, notes: string, updatedAt: string)

  /** The decrypted content of the hosts file. */
  datatype HostsFile = HostsFile(schema: string, updatedAt: string, hosts: seq<HostProfile>)

  /** Which file steps fail: `read` is reading or decrypting the hosts file,
      `write` is encrypting or writing it. */
  datatype Io = Io(read: bool, write: bool)

  /** The schema a new hosts file gets. */
  const HostsSchema := "xgoterm_hosts@1"

  /** Stands for the error the file system or the decryptor reports. */
  const IoError := "i/o error"

  const NotFound := "not found"
  const HostRequired := "host/username required"
  const InvalidExport := "invalid export file"
  const UnsupportedExport := "unsupported export"

  // ---------------------------------------------------------------------
  // Lookup, delete and upsert by id
  // ---------------------------------------------------------------------

  /** The position of the first profile with this id. */
  function FirstWithId(hosts: seq<HostProfile>, id: string): (r: Option<nat>)
    ensures r.Some? ==> r.value < |hosts| && hosts[r.value].id == id
    ensures r.Some? ==> forall k :: 0 <= k < r.value ==> hosts[k].id != id
    ensures r.None? ==> forall k :: 0 <= k < |hosts| ==> hosts[k].id != id
  {
    if hosts == [] then None
    else if hosts[0].id == id then Some(0)
    else match FirstWithId(hosts[1..], id)
      case None => None
      case Some(i) => Some(i + 1)
  }

  /** What `GetProfile` answers once the file is read: the first profile with the id, else "not found". */
  function Lookup(hosts: seq<HostProfile>, id: string): Result<HostProfile> {
    match FirstWithId(hosts, id)
    case Some(i) => Ok(hosts[i])
    case None => Err(NotFound)
  }

  /** The profiles whose id differs from `id`, in their order. */
  function Without(hosts: seq<HostProfile>, id: string): (r: seq<HostProfile>)
    ensures |r| <= |hosts|
  {
    if hosts == [] then []
    else (if hosts[0].id != id then [hosts[0]] else []) + Without(hosts[1..], id)
  }

  /** Replace the first profile with the same id, or append when there is none. */
  function Upsert(hosts: seq<HostProfile>, p: HostProfile): seq<HostProfile> {
    match FirstWithId(hosts, p.id)
    case Some(i) => hosts[i := p]
    case None => hosts + [p]
  }

  /** A lookup finds a profile exactly when one carries the id, and it is the first such one. */
  lemma LookupFirst(hosts: seq<HostProfile>, id: string)
    ensures Lookup(hosts, id).Ok? <==> exists k :: 0 <= k < |hosts| && hosts[k].id == id
    ensures Lookup(hosts, id).Err? ==> Lookup(hosts, id).error == NotFound
    ensures Lookup(hosts, id).Ok? ==>
      exists k :: (0 <= k < |hosts| && hosts[k] == Lookup(hosts, id).value && hosts[k].id == id
        && forall j :: 0 <= j < k ==> hosts[j].id != id)
  {
    match FirstWithId(hosts, id)
    case None =>
    case Some(i) =>
      assert hosts[i] == Lookup(hosts, id).value;
  }

  /** Deleting keeps exactly the profiles with another id. */
  lemma {:induction false} WithoutMembers(hosts: seq<HostProfile>, id: string)
    ensures forall p :: p in Without(hosts, id) <==> p in hosts && p.id != id
  {
    if hosts != [] {
      WithoutMembers(hosts[1..], id);
      assert forall p :: p in hosts <==> p == hosts[0] || p in hosts[1..];
    }
  }

  /** `Without` on a list given as its head and its tail. */
  lemma WithoutCons(h: HostProfile, t: seq<HostProfile>, id: string)
    ensures h.id != id ==> Without([h] + t, id) == [h] + Without(t, id)
    ensures h.id == id ==> Without([h] + t, id) == Without(t, id)
  {
    assert ([h] + t)[1..] == t;
    assert [] + Without(t, id) == Without(t, id);
  }

  /** `Lookup` on a list given as its head and its tail. */
  lemma LookupCons(h: HostProfile, t: seq<HostProfile>, id: string)
    ensures Lookup([h] + t, id) == if h.id == id then Ok(h) else Lookup(t, id)
  {
    assert ([h] + t)[1..] == t;
  }

  /** After a delete the id is gone, and every other id finds what it found before. */
  lemma {:induction false} WithoutLookup(hosts: seq<HostProfile>, id: string, other: string)
    ensures Lookup(Without(hosts, id), id) == Err(NotFound)
    ensures other != id ==> Lookup(Without(hosts, id), other) == Lookup(hosts, other)
  {
    if hosts != [] {
      var h, t := hosts[0], hosts[1..];
      assert hosts == [h] + t;
      WithoutLookup(t, id, other);
      LookupCons(h, t, other);
      WithoutCons(h, t, id);
      if h.id != id {
        LookupCons(h, Without(t, id), id);
        LookupCons(h, Without(t, id), other);
      }
    }
  }

  /** Deleting twice is deleting once. */
  lemma {:induction false} WithoutIdempotent(hosts: seq<HostProfile>, id: string)
    ensures Without(Without(hosts, id), id) == Without(hosts, id)
  {
    if hosts != [] {
      var h, t := hosts[0], hosts[1..];
      assert hosts == [h] + t;
      WithoutIdempotent(t, id);
      WithoutCons(h, t, id);
      if h.id != id {
        WithoutCons(h, Without(t, id), id);
      }
    }
  }

  /** After an upsert the id finds the new profile, every other id finds
      what it found before, and the list grows only when the id was new. */
  lemma UpsertLookup(hosts: seq<HostProfile>, p: HostProfile, other: string)
    ensures Lookup(Upsert(hosts, p), p.id) == Ok(p)
    ensures other != p.id ==> Lookup(Upsert(hosts, p), other) == Lookup(hosts, other)
    ensures |Upsert(hosts, p)| == if Lookup(hosts, p.id).Ok? then |hosts| else |hosts| + 1
  {
    var r := Upsert(hosts, p);
    match FirstWithId(hosts, p.id)
    case Some(i) =>
      assert FirstWithId(r, p.id) == Some(i) by {
        FirstWithIdAt(r, p.id, i);
      }
      if other != p.id {
        FirstWithIdSame(hosts, r, other);
      }
    case None =>
      assert FirstWithId(r, p.id) == Some(|hosts|) by {
        FirstWithIdAt(r, p.id, |hosts|);
      }
      if other != p.id {
        FirstWithIdSame(hosts, r, other);
      }
  }

  /** The first match is at `i` when `i` matches and nothing before it does. */
  lemma {:induction false} FirstWithIdAt(hosts: seq<HostProfile>, id: string, i: nat)
    requires i < |hosts| && hosts[i].id == id
    requires forall k :: 0 <= k < i ==> hosts[k].id != id
    ensures FirstWithId(hosts, id) == Some(i)
  {
    if i > 0 {
      FirstWithIdAt(hosts[1..], id, i - 1);
    }
  }

  /** Two lists that agree on which positions carry `id` (and the longer one
      only adds positions that do not) have the same first match. */
  lemma {:induction false} FirstWithIdSame(a: seq<HostProfile>, b: seq<HostProfile>, id: string)
    requires |a| <= |b|
    requires forall k :: 0 <= k < |a| ==> (a[k].id == id <==> b[k].id == id)
    requires forall k :: |a| <= k < |b| ==> b[k].id != id
    requires forall k :: 0 <= k < |a| && a[k].id == id ==> a[k] == b[k]
    ensures Lookup(a, id) == Lookup(b, id)
  {
    if a != [] {
      FirstWithIdSame(a[1..], b[1..], id);
    }
  }

  // ---------------------------------------------------------------------
  // Save: defaults
  // ---------------------------------------------------------------------

  /** The defaults `SaveProfile` fills in: port 22, the host as the name, a
      fresh id, and the save time. */
  function WithDefaults(p: HostProfile, uuid: string, now: string): (r: HostProfile)
    ensures r.port == (if p.port == 0 then 22 else p.port)
    ensures r.name == (if p.name == "" then p.host else p.name)
    ensures r.id == (if p.id == "" then uuid else p.id)
    ensures r.updatedAt == now
    ensures r.(port := p.port, name := p.name, id := p.id, updatedAt := p.updatedAt) == p
  {
    p.(port := if p.port == 0 then 22 else p.port,
       name := if p.name == "" then p.host else p.name,
       id := if p.id == "" then uuid else p.id,
       updatedAt := now)
  }

  /** Filling in defaults twice (at the same time) changes nothing more. */
  lemma WithDefaultsIdempotent(p: HostProfile, u1: string, u2: string, now: string)
    requires u1 != ""
    ensures WithDefaults(WithDefaults(p, u1, now), u2, now) == WithDefaults(p, u1, now)
  {
  }

  // ---------------------------------------------------------------------
  // Import: header checks and the merge
  // ---------------------------------------------------------------------

  /** The clear-text header of an export file. */
  datatype ExportHeader = ExportHeader(version: int, schema: string, kdfName: string, cipherName: string)

  /** The header checks of `ImportProfiles`, in their order. */
  function CheckHeader(h: ExportHeader): (r: Option<string>)
    ensures r == None <==> h.version == 1 && h.schema != "" && h.kdfName == "argon2id" && h.cipherName == "aes-256-gcm"
    ensures r.Some? ==> r.value in {InvalidExport, UnsupportedExport}
    ensures (h.version != 1 || h.schema == "") ==> r == Some(InvalidExport)
  {
    if h.version != 1 || h.schema == "" then Some(InvalidExport)
    else if h.kdfName != "argon2id" || h.cipherName != "aes-256-gcm" then Some(UnsupportedExport)
    else None
  }

  function Ids(hosts: seq<HostProfile>): set<string> {
    set k | 0 <= k < |hosts| :: hosts[k].id
  }

  /** The incoming profiles as the merge appends them: an id that is empty
      or already seen (in the file or earlier in the batch) is replaced by
      the `start`-th and later fresh UUIDs, one per incoming profile. */
  function Renamed(seen: set<string>, incoming: seq<HostProfile>, uuids: nat -> string, start: nat): (r: seq<HostProfile>)
    ensures |r| == |incoming|
    decreases |incoming|
  {
    if incoming == [] then []
    else
      var p := incoming[0];
      var q := if p.id == "" || p.id in seen then p.(id := uuids(start)) else p;
      [q] + Renamed(seen + {q.id}, incoming[1..], uuids, start + 1)
  }

  /** One step of the merge loop: the `k`-th incoming profile and the rest. */
  lemma RenamedStep(seen: set<string>, incoming: seq<HostProfile>, uuids: nat -> string, k: nat)
    requires k < |incoming|
    ensures var p := incoming[k];
      var q := if p.id == "" || p.id in seen then p.(id := uuids(k)) else p;
      Renamed(seen, incoming[k..], uuids, k) == [q] + Renamed(seen + {q.id}, incoming[k + 1..], uuids, k + 1)
  {
    assert incoming[k..][0] == incoming[k];
    assert incoming[k..][1..] == incoming[k + 1..];
  }

  /** The merge changes nothing but ids, and keeps an id that is neither
      empty nor seen before. */
  lemma {:induction false} RenamedShape(seen: set<string>, incoming: seq<HostProfile>, uuids: nat -> string, start: nat)
    ensures var r := Renamed(seen, incoming, uuids, start);
      forall k :: 0 <= k < |incoming| ==> r[k] == incoming[k].(id := r[k].id)
    ensures var r := Renamed(seen, incoming, uuids, start);
      |incoming| > 0 && incoming[0].id != "" && incoming[0].id !in seen ==> r[0] == incoming[0]
    decreases |incoming|
  {
    if incoming != [] {
      var p := incoming[0];
      var q := if p.id == "" || p.id in seen then p.(id := uuids(start)) else p;
      RenamedShape(seen + {q.id}, incoming[1..], uuids, start + 1);
      var rest := Renamed(seen + {q.id}, incoming[1..], uuids, start + 1);
      var r := [q] + rest;
      forall k | 0 <= k < |incoming| ensures r[k] == incoming[k].(id := r[k].id) {
        if k > 0 {
          assert r[k] == rest[k - 1] && incoming[k] == incoming[1..][k - 1];
        }
      }
    }
  }

  /** Ids that are non-empty, pairwise distinct and not in `seen`. */
  predicate FreshIds(r: seq<HostProfile>, seen: set<string>) {
    (forall k :: 0 <= k < |r| ==> r[k].id != "" && r[k].id !in seen)
    && (forall i, j :: 0 <= i < j < |r| ==> r[i].id != r[j].id)
  }

  /** With fresh UUIDs that are non-empty, pairwise distinct and unlike every
      id already present or incoming, the merged profiles have non-empty ids,
      pairwise distinct and unlike the ids already present. */
  lemma {:induction false} RenamedDistinct(seen: set<string>, incoming: seq<HostProfile>, uuids: nat -> string, start: nat)
    requires forall j :: j >= start ==> uuids(j) != "" && uuids(j) !in seen
    requires forall i, j :: start <= i < j ==> uuids(i) != uuids(j)
    requires forall j, k :: j >= start && 0 <= k < |incoming| ==> uuids(j) != incoming[k].id
    ensures FreshIds(Renamed(seen, incoming, uuids, start), seen)
    decreases |incoming|
  {
    if incoming != [] {
      var p := incoming[0];
      var q := if p.id == "" || p.id in seen then p.(id := uuids(start)) else p;
      var tail := incoming[1..];
      forall j | j >= start + 1 ensures uuids(j) != "" && uuids(j) !in seen + {q.id} {
        if q.id != uuids(start) {
          assert q.id == incoming[0].id;
        }
      }
      forall j, k | j >= start + 1 && 0 <= k < |tail| ensures uuids(j) != tail[k].id {
        assert tail[k] == incoming[k + 1];
      }
      RenamedDistinct(seen + {q.id}, tail, uuids, start + 1);
      var rest := Renamed(seen + {q.id}, tail, uuids, start + 1);
      var r := [q] + rest;
      assert Renamed(seen, incoming, uuids, start) == r;
      assert q.id != "" && q.id !in seen by {
        if p.id == "" || p.id in seen {
          assert q.id == uuids(start);
        }
      }
      forall k | 0 <= k < |r| ensures r[k].id != "" && r[k].id !in seen {
        if k > 0 {
          assert r[k] == rest[k - 1];
          assert rest[k - 1].id != "" && rest[k - 1].id !in seen + {q.id};
        }
      }
      forall i, j | 0 <= i < j < |r| ensures r[i].id != r[j].id {
        assert r[j] == rest[j - 1];
        assert rest[j - 1].id !in seen + {q.id};
        if i > 0 {
          assert r[i] == rest[i - 1];
        }
      }
    }
  }

  /** The hosts file after an import into `base`. */
  function Merge(base: HostsFile, incoming: seq<HostProfile>, uuids: nat -> string, now: string): HostsFile {
    HostsFile(base.schema, now, base.hosts + Renamed(Ids(base.hosts), incoming, uuids, 0))
  }

  /** An import keeps every saved host, in place, and appends one profile
      per incoming profile, changed in its id at most. */
  lemma MergeKeepsSaved(base: HostsFile, incoming: seq<HostProfile>, uuids: nat -> string, now: string)
    ensures var m := Merge(base, incoming, uuids, now);
      m.schema == base.schema && m.updatedAt == now
      && |m.hosts| == |base.hosts| + |incoming| && m.hosts[..|base.hosts|] == base.hosts
      && forall k :: 0 <= k < |incoming| ==> m.hosts[|base.hosts| + k] == incoming[k].(id := m.hosts[|base.hosts| + k].id)
  {
    var m := Merge(base, incoming, uuids, now);
    RenamedShape(Ids(base.hosts), incoming, uuids, 0);
    assert m.hosts[..|base.hosts|] == base.hosts;
  }

  /** With suitable fresh UUIDs, an import into a file whose ids are
      distinct leaves a file whose ids are distinct and non-empty past the
      saved hosts. */
  lemma MergeIdsUnique(base: HostsFile, incoming: seq<HostProfile>, uuids: nat -> string, now: string)
    requires forall i, j :: 0 <= i < j < |base.hosts| ==> base.hosts[i].id != base.hosts[j].id
    requires forall j :: uuids(j) != "" && uuids(j) !in Ids(base.hosts)
    requires forall i, j :: 0 <= i < j ==> uuids(i) != uuids(j)
    requires forall j, k :: 0 <= k < |incoming| ==> uuids(j) != incoming[k].id
    ensures var m := Merge(base, incoming, uuids, now);
      (forall i, j :: 0 <= i < j < |m.hosts| ==> m.hosts[i].id != m.hosts[j].id)
      && forall k :: |base.hosts| <= k < |m.hosts| ==> m.hosts[k].id != ""
  {
    var m := Merge(base, incoming, uuids, now);
    var n := |base.hosts|;
    var r := Renamed(Ids(base.hosts), incoming, uuids, 0);
    RenamedDistinct(Ids(base.hosts), incoming, uuids, 0);
    assert m.hosts == base.hosts + r;
    forall k | n <= k < |m.hosts| ensures m.hosts[k].id != "" {
      assert m.hosts[k] == r[k - n];
    }
    forall i, j | 0 <= i < j < |m.hosts| ensures m.hosts[i].id != m.hosts[j].id {
      if j >= n {
        assert m.hosts[j] == r[j - n];
        assert m.hosts[j].id !in Ids(base.hosts);
        if i >= n {
          assert m.hosts[i] == r[i - n];
        } else {
          assert m.hosts[i] == base.hosts[i];
          assert base.hosts[i].id in Ids(base.hosts);
        }
      } else {
        assert m.hosts[i] == base.hosts[i] && m.hosts[j] == base.hosts[j];
      }
    }
  }

  /** The merge the code does when reading the hosts file fails: the error
      is dropped and the merge starts from an empty record, schema blank. */
  function ImportBaseAsWritten(present: bool, file: HostsFile, io: Io): HostsFile {
    if present then (if io.read then HostsFile("", "", []) else file)
    else HostsFile(HostsSchema, "", [])
  }

  /** The base the merge should start from: the file when it is read, a new
      file when there is none, and no merge at all when it cannot be read. */
  function ImportBase(present: bool, file: HostsFile, io: Io): (r: Result<HostsFile>)
    ensures present && !io.read ==> r == Ok(file)
    ensures present && io.read ==> r == Err(IoError)
    ensures !present ==> r == Ok(HostsFile(HostsSchema, "", []))
  {
    if present then (if io.read then Err(IoError) else Ok(file))
    else Ok(HostsFile(HostsSchema, "", []))
  }

  /** As written, an import over a hosts file that exists but cannot be read
      or decrypted writes back only the imported profiles, under a blank
      schema: every saved host is lost. */
  lemma ImportAsWrittenDropsSavedHosts(file: HostsFile, incoming: seq<HostProfile>, uuids: nat -> string, now: string)
    requires file.hosts != []
    ensures var w := Merge(ImportBaseAsWritten(true, file, Io(true, false)), incoming, uuids, now);
      w.schema == "" && w.hosts == Renamed({}, incoming, uuids, 0) && |w.hosts| == |incoming|
    ensures Merge(ImportBaseAsWritten(true, file, Io(true, false)), [], uuids, now).hosts == []
  {
    assert Ids([]) == {};
  }

  // ---------------------------------------------------------------------
  // List: the stable sort by name, then newest first
  // ---------------------------------------------------------------------

  /** What the comparator looks at: the lower-cased name and the update time. */
  function SortKey(p: HostProfile): (string, string) {
    (Lower(p.name), p.updatedAt)
  }

  /** The comparator: names compared without case; equal names put the
      later update time first. */
  predicate KeyBefore(a: (string, string), b: (string, string)) {
    if a.0 == b.0 then StrLess(b.1, a.1) else StrLess(a.0, b.0)
  }

  predicate Before(a: HostProfile, b: HostProfile) {
    KeyBefore(SortKey(a), SortKey(b))
  }

  lemma KeyBeforeIrreflexive(a: (string, string))
    ensures !KeyBefore(a, a)
  {
    StrLessIrreflexive(a.1);
  }

  lemma KeyBeforeTransitive(a: (string, string), b: (string, string), c: (string, string))
    requires KeyBefore(a, b) && KeyBefore(b, c)
    ensures KeyBefore(a, c)
  {
    if a.0 == b.0 && b.0 == c.0 {
      StrLessTransitive(c.1, b.1, a.1);
    } else if a.0 == b.0 {
      assert StrLess(b.0, c.0);
    } else if b.0 == c.0 {
      assert StrLess(a.0, b.0);
    } else {
      StrLessTransitive(a.0, b.0, c.0);
      if a.0 == c.0 {
        StrLessIrreflexive(a.0);
        StrLessTransitive(a.0, b.0, a.0);
      }
    }
  }

  lemma KeyBeforeTotal(a: (string, string), b: (string, string))
    ensures KeyBefore(a, b) || KeyBefore(b, a) || a == b
  {
    if a.0 == b.0 {
      if a.1 != b.1 {
        StrLessTotal(a.1, b.1);
      }
    } else {
      StrLessTotal(a.0, b.0);
    }
  }

  /** `!Before` (at most) is transitive. */
  lemma NotBeforeTransitive(a: HostProfile, b: HostProfile, c: HostProfile)
    requires !Before(b, a) && !Before(c, b)
    ensures !Before(c, a)
  {
    var ka, kb, kc := SortKey(a), SortKey(b), SortKey(c);
    KeyBeforeTotal(ka, kb);
    KeyBeforeTotal(kb, kc);
    if KeyBefore(kc, ka) {
      if KeyBefore(ka, kb) {
        KeyBeforeTransitive(kc, ka, kb);
        if KeyBefore(kb, kc) {
          KeyBeforeTransitive(kb, kc, kb);
          KeyBeforeIrreflexive(kb);
        }
      }
    }
  }

  /** Insertion of one profile behind every profile it is not before. */
  function Insert(sorted: seq<HostProfile>, x: HostProfile): (r: seq<HostProfile>)
    ensures |r| == |sorted| + 1
  {
    if sorted == [] then [x]
    else if Before(x, sorted[|sorted| - 1]) then Insert(sorted[..|sorted| - 1], x) + [sorted[|sorted| - 1]]
    else sorted + [x]
  }

  /** `sort.SliceStable` with the comparator, as an insertion sort. */
  function SortProfiles(hosts: seq<HostProfile>): (r: seq<HostProfile>)
    ensures |r| == |hosts|
  {
    if hosts == [] then [] else Insert(SortProfiles(hosts[..|hosts| - 1]), hosts[|hosts| - 1])
  }

  predicate Sorted(hosts: seq<HostProfile>) {
    forall i, j :: 0 <= i < j < |hosts| ==> !Before(hosts[j], hosts[i])
  }

  /** The profiles with one sort key, in their order. */
  function WithKey(hosts: seq<HostProfile>, key: (string, string)): seq<HostProfile> {
    if hosts == [] then []
    else WithKey(hosts[..|hosts| - 1], key) + (if SortKey(hosts[|hosts| - 1]) == key then [hosts[|hosts| - 1]] else [])
  }

  lemma {:induction false} InsertPermutes(sorted: seq<HostProfile>, x: HostProfile)
    ensures multiset(Insert(sorted, x)) == multiset(sorted) + multiset{x}
  {
    if sorted != [] && Before(x, sorted[|sorted| - 1]) {
      var init, last := sorted[..|sorted| - 1], sorted[|sorted| - 1];
      InsertPermutes(init, x);
      assert sorted == init + [last];
    }
  }

  lemma {:induction false} InsertSorted(sorted: seq<HostProfile>, x: HostProfile)
    requires Sorted(sorted)
    ensures Sorted(Insert(sorted, x))
  {
    if sorted != [] {
      var init, last := sorted[..|sorted| - 1], sorted[|sorted| - 1];
      if Before(x, last) {
        InsertSorted(init, x);
        InsertPermutes(init, x);
        var r := Insert(init, x);
        forall y | y in r ensures !Before(last, y) {
          assert y in multiset(r);
          if y == x {
            KeyBeforeIrreflexive(SortKey(x));
            if Before(last, x) {
              KeyBeforeTransitive(SortKey(x), SortKey(last), SortKey(x));
            }
          } else {
            assert y in multiset(init);
            var k :| 0 <= k < |init| && init[k] == y;
            assert sorted[k] == y;
          }
        }
        AppendSorted(r, last);
      } else {
        forall k | 0 <= k < |sorted| ensures !Before(x, sorted[k]) {
          if k < |sorted| - 1 {
            NotBeforeTransitive(sorted[k], last, x);
          }
        }
        AppendSorted(sorted, x);
      }
    }
  }

  lemma AppendSorted(s: seq<HostProfile>, x: HostProfile)
    requires Sorted(s)
    requires forall y :: y in s ==> !Before(x, y)
    ensures Sorted(s + [x])
  {
    var r := s + [x];
    forall i, j | 0 <= i < j < |r| ensures !Before(r[j], r[i]) {
      if j == |s| {
        assert r[i] in s;
      }
    }
  }

  lemma {:induction false} InsertWithKey(sorted: seq<HostProfile>, x: HostProfile, key: (string, string))
    ensures WithKey(Insert(sorted, x), key) == WithKey(sorted, key) + (if SortKey(x) == key then [x] else [])
  {
    if sorted != [] {
      var init, last := sorted[..|sorted| - 1], sorted[|sorted| - 1];
      if Before(x, last) {
        InsertWithKey(init, x, key);
        var r := Insert(init, x) + [last];
        assert r[..|r| - 1] == Insert(init, x);
        if SortKey(x) == key {
          KeyBeforeIrreflexive(key);
          assert SortKey(last) != key;
        }
      } else {
        var r := sorted + [x];
        assert r[..|r| - 1] == sorted;
      }
    }
  }

  /** The listing holds the same profiles, sorted. */
  lemma {:induction false} SortProfilesSorted(hosts: seq<HostProfile>)
    ensures multiset(SortProfiles(hosts)) == multiset(hosts)
    ensures Sorted(SortProfiles(hosts))
  {
    if hosts != [] {
      var init, last := hosts[..|hosts| - 1], hosts[|hosts| - 1];
      SortProfilesSorted(init);
      InsertPermutes(SortProfiles(init), last);
      InsertSorted(SortProfiles(init), last);
      assert hosts == init + [last];
    }
  }

  /** The sort is stable: profiles with equal keys keep the order they had
      in the file. */
  lemma {:induction false} SortProfilesStable(hosts: seq<HostProfile>, key: (string, string))
    ensures WithKey(SortProfiles(hosts), key) == WithKey(hosts, key)
  {
    if hosts != [] {
      var init, last := hosts[..|hosts| - 1], hosts[|hosts| - 1];
      SortProfilesStable(init, key);
      InsertWithKey(SortProfiles(init), last, key);
    }
  }

  // ---------------------------------------------------------------------
  // The manager
  // ---------------------------------------------------------------------

  /** The profile store: whether the hosts file exists and what it holds. */
  class ProfilesManager {
    var present: bool
    var file: HostsFile

    constructor (present: bool, file: HostsFile)
      ensures this.present == present && this.file == file
    {
      this.present := present;
      this.file := file;
    }

    /** `GetProfile`: read the file, then the first profile with the id. */
    method GetProfile(id: string, io: Io) returns (r: Result<HostProfile>)
      ensures !present || io.read ==> r == Err(IoError)
      ensures present && !io.read ==> r == Lookup(file.hosts, id)
    {
      if !present || io.read {
        return Err(IoError);
      }
      var hosts := file.hosts;
      var i := 0;
      while i < |hosts|
        invariant 0 <= i <= |hosts|
        invariant forall k :: 0 <= k < i ==> hosts[k].id != id
      {
        if hosts[i].id == id {
          FirstWithIdAt(hosts, id, i);
          return Ok(hosts[i]);
        }
        i := i + 1;
      }
      return Err(NotFound);
    }

    /** `DeleteProfile`: keep the profiles with another id and write the file back. */
    method DeleteProfile(id: string, now: string, io: Io) returns (err: Option<string>)
      modifies this`file
      ensures !present || io.read || io.write ==> err == Some(IoError) && file == old(file)
      ensures present && !io.read && !io.write ==>
        err == None && file == HostsFile(old(file).schema, now, Without(old(file).hosts, id))
    {
      if !present || io.read {
        return Some(IoError);
      }
      var out := RemoveId(file.hosts, id);
      if io.write {
        return Some(IoError);
      }
      file := HostsFile(file.schema, now, out);
      err := None;
    }

    /** `SaveProfile`: check host and user, fill in the defaults, upsert by id
        into the file (a new file when there is none) and write it back. */
    method SaveProfile(p: HostProfile, uuid: string, now: string, io: Io) returns (r: Result<string>)
      modifies this`file, this`present
      ensures p.host == "" || p.username == "" ==> r == Err(HostRequired)
      ensures r.Err? ==> file == old(file) && present == old(present)
      ensures p.host != "" && p.username != "" && old(present) && io.read ==> r == Err(IoError)
      ensures p.host != "" && p.username != "" && !(old(present) && io.read) ==>
        var q := WithDefaults(p, uuid, now);
        var base := if old(present) then old(file) else HostsFile(HostsSchema, "", []);
        if io.write then r == Err(IoError)
        else r == Ok(q.id) && present && file == HostsFile(base.schema, now, Upsert(base.hosts, q))
    {
      if p.host == "" || p.username == "" {
        return Err(HostRequired);
      }
      var q := WithDefaults(p, uuid, now);
      var base: HostsFile;
      if present {
        if io.read {
          return Err(IoError);
        }
        base := file;
      } else {
        base := HostsFile(HostsSchema, "", []);
      }
      var hosts := UpsertById(base.hosts, q);
      if io.write {
        return Err(IoError);
      }
      file := HostsFile(base.schema, now, hosts);
      present := true;
      r := Ok(q.id);
    }

    /** `ImportProfiles` once the export file is read: the header checks, the
        decrypted payload (or the error reading, decoding or decrypting it
        gave), then the merge into the hosts file and the write. The merge
        starts from the corrected base (see `ImportBase`). */
    method ImportProfiles(header: Result<ExportHeader>, payload: Result<seq<HostProfile>>,
                          uuids: nat -> string, now: string, io: Io) returns (r: Result<nat>)
      modifies this`file, this`present
      ensures r.Err? ==> file == old(file) && present == old(present)
      ensures header.Err? ==> r == Err(header.error)
      ensures header.Ok? && CheckHeader(header.value).Some? ==> r == Err(CheckHeader(header.value).value)
      ensures header.Ok? && CheckHeader(header.value).None? && payload.Err? ==> r == Err(payload.error)
      ensures header.Ok? && CheckHeader(header.value).None? && payload.Ok? ==>
        match ImportBase(old(present), old(file), io)
        case Err(e) => r == Err(e)
        case Ok(base) =>
          (if io.write then r == Err(IoError)
           else r == Ok(|payload.value|) && present && file == Merge(base, payload.value, uuids, now))
    {
      if header.Err? {
        return Err(header.error);
      }
      var bad := CheckHeader(header.value);
      if bad.Some? {
        return Err(bad.value);
      }
      if payload.Err? {
        return Err(payload.error);
      }
      var base := ImportBase(present, file, io);
      if base.Err? {
        return Err(base.error);
      }
      var merged, added := MergeHosts(base.value.hosts, payload.value, uuids);
      if io.write {
        return Err(IoError);
      }
      file := HostsFile(base.value.schema, now, merged);
      present := true;
      r := Ok(added);
    }

    /** `ListProfiles`: no file lists nothing; otherwise the sorted profiles. */
    method ListProfiles(io: Io) returns (r: Result<seq<HostProfile>>)
      ensures !present ==> r == Ok([])
      ensures present && io.read ==> r == Err(IoError)
      ensures present && !io.read ==> r == Ok(SortProfiles(file.hosts))
    {
      if !present {
        return Ok([]);
      }
      if io.read {
        return Err(IoError);
      }
      r := Ok(SortProfiles(file.hosts));
    }
  }

  /** The filtering loop of `DeleteProfile`. */
  method RemoveId(hosts: seq<HostProfile>, id: string) returns (out: seq<HostProfile>)
    ensures out == Without(hosts, id)
  {
    out := [];
    var i := 0;
    while i < |hosts|
      invariant 0 <= i <= |hosts|
      invariant out == Without(hosts[..i], id)
    {
      WithoutSnoc(hosts, i, id);
      if hosts[i].id != id {
        out := out + [hosts[i]];
      }
      i := i + 1;
    }
    assert hosts[..i] == hosts;
  }

  /** The upsert loop of `SaveProfile`: replace the first profile with the
      same id and stop, or append when the loop finds none. */
  method UpsertById(hosts: seq<HostProfile>, q: HostProfile) returns (out: seq<HostProfile>)
    ensures out == Upsert(hosts, q)
  {
    out := hosts;
    var i := 0;
    while i < |hosts|
      invariant 0 <= i <= |hosts|
      invariant forall k :: 0 <= k < i ==> hosts[k].id != q.id
    {
      if hosts[i].id == q.id {
        FirstWithIdAt(hosts, q.id, i);
        out := hosts[i := q];
        return;
      }
      i := i + 1;
    }
    out := hosts + [q];
  }

  /** The merge loop of `ImportProfiles`: every incoming profile is appended,
      under a fresh UUID when its id is empty or already taken. */
  method MergeHosts(curr: seq<HostProfile>, incoming: seq<HostProfile>, uuids: nat -> string)
    returns (out: seq<HostProfile>, added: nat)
    ensures out == curr + Renamed(Ids(curr), incoming, uuids, 0)
    ensures added == |incoming|
  {
    var exist := Ids(curr);
    out := curr;
    added := 0;
    var k := 0;
    assert incoming[0..] == incoming;
    while k < |incoming|
      invariant 0 <= k <= |incoming| && added == k
      invariant out + Renamed(exist, incoming[k..], uuids, k) == curr + Renamed(Ids(curr), incoming, uuids, 0)
    {
      RenamedStep(exist, incoming, uuids, k);
      var p := incoming[k];
      if p.id == "" || p.id in exist {
        p := p.(id := uuids(k));
      }
      assert out + [p] + Renamed(exist + {p.id}, incoming[k + 1..], uuids, k + 1)
          == out + ([p] + Renamed(exist + {p.id}, incoming[k + 1..], uuids, k + 1));
      exist := exist + {p.id};
      out := out + [p];
      added := added + 1;
      k := k + 1;
    }
    assert incoming[k..] == [];
  }

  lemma WithoutSnoc(hosts: seq<HostProfile>, i: nat, id: string)
    requires i < |hosts|
    ensures Without(hosts[..i + 1], id) == Without(hosts[..i], id) + (if hosts[i].id != id then [hosts[i]] else [])
  {
    WithoutConcat(hosts[..i], [hosts[i]], id);
    assert hosts[..i + 1] == hosts[..i] + [hosts[i]];
  }

  lemma {:induction false} WithoutConcat(a: seq<HostProfile>, b: seq<HostProfile>, id: string)
    ensures Without(a + b, id) == Without(a, id) + Without(b, id)
  {
    if a == [] {
      assert a + b == b;
    } else {
      assert (a + b)[1..] == a[1..] + b;
      WithoutConcat(a[1..], b, id);
    }
  }
}
