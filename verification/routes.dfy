/** The application table behind `/api/apps`: an ordered list of registered
    backends and the three mutations the settings API offers on it. Each
    mutation either refuses, leaving the table as it was, or changes it in one
    precise way: append, replace at an index, or splice out an index. */
module Routes {
  import opened Wrappers
  import opened Seqs

  /** One registered backend: a display name, the local port it listens on
      (already through `parseInt`) and the URL path it is mounted under. */
  datatype App = App(name: string, port: int, path: string)

  /** Why a table mutation was refused. */
  datatype AppError = MissingField | PathTaken | NotFound

  /** The `error` text the settings API answers with. */
  function Message(e: AppError): string {
    match e
    case MissingField => "Name, port, and path are required"
    case PathTaken => "Path already exists"
    case NotFound => "App not found"
  }

  /** The entry-matching callback `app => app.path === path`. */
  function AtPath(path: string): App -> bool {
    (a: App) => a.path == path
  }

  /** `apps.some(app => app.path === path)`. */
  ghost predicate HasPath(apps: seq<App>, path: string) {
    exists i :: 0 <= i < |apps| && apps[i].path == path
  }

  /** `k` is the index `findIndex` reports for `path`. */
  ghost predicate FirstAt(apps: seq<App>, path: string, k: int) {
    IsFirst(apps, AtPath(path), k)
  }

  /** No two entries are mounted at the same path. */
  ghost predicate UniquePaths(apps: seq<App>) {
    forall i, j :: 0 <= i < |apps| && 0 <= j < |apps| && i != j ==> apps[i].path != apps[j].path
  }

  /** `after` is `before` with `a` pushed onto the end. */
  ghost predicate AppendedWith(before: seq<App>, after: seq<App>, a: App) {
    && |after| == |before| + 1
    && after[|before|] == a
    && forall j :: 0 <= j < |before| ==> after[j] == before[j]
  }

  /** `after` is `before` with index `k` overwritten by `a`. */
  ghost predicate ReplacedAt(before: seq<App>, after: seq<App>, k: int, a: App) {
    && 0 <= k < |before|
    && |after| == |before|
    && after[k] == a
    && forall j :: 0 <= j < |before| && j != k ==> after[j] == before[j]
  }

  /** `after` is `before` with index `k` spliced out, the rest in order. */
  ghost predicate RemovedAt(before: seq<App>, after: seq<App>, k: int) {
    && 0 <= k < |before|
    && |after| == |before| - 1
    && (forall j :: 0 <= j < k ==> after[j] == before[j])
    && (forall j :: k <= j < |after| ==> after[j] == before[j + 1])
  }

  /** The index of the first entry mounted at `path`, or `None` for `-1`. */
  function IndexOf(apps: seq<App>, path: string): (r: Option<nat>)
    ensures r.None? <==> !HasPath(apps, path)
    ensures r.Some? ==> FirstAt(apps, path, r.value)
  {
    var r := FindIndex(apps, AtPath(path));
    assert r.None? ==> forall j :: 0 <= j < |apps| ==> apps[j].path != path by {
      if r.None? {
        forall j | 0 <= j < |apps| ensures apps[j].path != path {
          assert !AtPath(path)(apps[j]);
        }
      }
    }
    assert r.Some? ==> apps[r.value].path == path by {
      if r.Some? {
        assert AtPath(path)(apps[r.value]);
      }
    }
    r
  }

  /** `POST /api/apps`. A falsy field (the empty string, or port 0) is refused
      first, then a path that is already mounted; otherwise the entry is pushed
      onto the end of the table. */
  function Add(apps: seq<App>, name: string, port: int, path: string): (r: Result<seq<App>, AppError>)
    ensures r == Err(MissingField) <==> (name == "" || port == 0 || path == "")
    ensures r == Err(PathTaken) <==> (name != "" && port != 0 && path != "" && HasPath(apps, path))
    ensures r.Ok? <==> (name != "" && port != 0 && path != "" && !HasPath(apps, path))
    ensures r.Ok? ==> AppendedWith(apps, r.value, App(name, port, path))
    ensures r.Ok? && UniquePaths(apps) ==> UniquePaths(r.value)
  {
    if name == "" || port == 0 || path == "" then Err(MissingField)
    else if IndexOf(apps, path).Some? then Err(PathTaken)
    else Ok(apps + [App(name, port, path)])
  }

  /** `PUT /api/apps/:path`. The entry found at `oldPath` is overwritten with
      the request's fields; the new path is refused only when it differs from
      the old one and is already mounted. The fields themselves are not checked. */
  function Update(apps: seq<App>, oldPath: string, name: string, port: int, newPath: string)
    : (r: Result<seq<App>, AppError>)
    ensures r == Err(NotFound) <==> !HasPath(apps, oldPath)
    ensures r == Err(PathTaken) <==> (HasPath(apps, oldPath) && newPath != oldPath && HasPath(apps, newPath))
    ensures r.Ok? <==> (HasPath(apps, oldPath) && (newPath == oldPath || !HasPath(apps, newPath)))
    ensures r.Ok? ==> forall k :: FirstAt(apps, oldPath, k) ==> ReplacedAt(apps, r.value, k, App(name, port, newPath))
    ensures r.Ok? && UniquePaths(apps) ==> UniquePaths(r.value)
  {
    match IndexOf(apps, oldPath)
    case None => Err(NotFound)
    case Some(k) =>
      if newPath != oldPath && IndexOf(apps, newPath).Some? then Err(PathTaken)
      else
        var r := apps[k := App(name, port, newPath)];
        assert forall k' :: FirstAt(apps, oldPath, k') ==> k' == k by {
          forall k' | FirstAt(apps, oldPath, k') ensures k' == k {
            FirstIsUnique(apps, AtPath(oldPath), k', k);
          }
        }
        Ok(r)
  }

  /** `DELETE /api/apps/:path`. The first entry mounted at `path` is spliced
      out; an unknown path is refused. */
  function Remove(apps: seq<App>, path: string): (r: Result<seq<App>, AppError>)
    ensures r == Err(NotFound) <==> !HasPath(apps, path)
    ensures r.Ok? <==> HasPath(apps, path)
    ensures r.Ok? ==> forall k :: FirstAt(apps, path, k) ==> RemovedAt(apps, r.value, k)
    ensures r.Ok? && UniquePaths(apps) ==> UniquePaths(r.value) && !HasPath(r.value, path)
  {
    match IndexOf(apps, path)
    case None => Err(NotFound)
    case Some(k) =>
      var r := apps[..k] + apps[k + 1..];
      assert forall k' :: FirstAt(apps, path, k') ==> k' == k by {
        forall k' | FirstAt(apps, path, k') ensures k' == k {
          FirstIsUnique(apps, AtPath(path), k', k);
        }
      }
      assert RemovedAt(apps, r, k);
      Ok(r)
  }

  /** Adding an entry and then deleting its path gives the table back. */
  lemma {:induction false} AddThenRemove(apps: seq<App>, name: string, port: int, path: string)
    requires Add(apps, name, port, path).Ok?
    ensures Remove(Add(apps, name, port, path).value, path) == Ok(apps)
  {
    var t := Add(apps, name, port, path).value;
    assert t[|apps|].path == path;
    assert HasPath(t, path);
    var k := IndexOf(t, path).value;
    assert FirstAt(t, path, |apps|) by {
      forall j | 0 <= j < |apps| ensures !AtPath(path)(t[j]) {
        assert t[j] == apps[j];
        assert !(apps[j].path == path);
      }
    }
    FirstIsUnique(t, AtPath(path), k, |apps|);
    var r := Remove(t, path).value;
    assert RemovedAt(t, r, |apps|);
    assert r == apps;
  }

  /** Rewriting an entry with its own fields at its own path changes nothing. */
  lemma {:induction false} UpdateWithSameFields(apps: seq<App>, k: nat)
    requires k < |apps|
    requires FirstAt(apps, apps[k].path, k)
    ensures Update(apps, apps[k].path, apps[k].name, apps[k].port, apps[k].path) == Ok(apps)
  {
    var a := apps[k];
    assert HasPath(apps, a.path);
    var r := Update(apps, a.path, a.name, a.port, a.path).value;
    assert ReplacedAt(apps, r, k, App(a.name, a.port, a.path));
    assert r == apps;
  }

  /** After a successful update of a table with unique paths, the updated entry
      is the one found at its new path, with exactly the submitted fields. */
  lemma UpdateIsVisible(apps: seq<App>, oldPath: string, name: string, port: int, newPath: string)
    requires UniquePaths(apps)
    requires Update(apps, oldPath, name, port, newPath).Ok?
    ensures var t := Update(apps, oldPath, name, port, newPath).value;
      && IndexOf(t, newPath) == IndexOf(apps, oldPath)
      && t[IndexOf(t, newPath).value] == App(name, port, newPath)
  {
  }
}
