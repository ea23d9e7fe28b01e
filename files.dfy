/** The file-manager commands of `instructor/cli/files.py`, with the remote
    service replaced by what it answers: the records `File.list` returns,
    the statuses successive `File.retrieve` calls report, the outcome of
    `File.create` and `File.delete`. Sleeps and console lines become events. */
module Files {

  import opened Wrappers

  /** A remote file record as `File.list` and `File.retrieve` return it. */
  datatype FileRecord = FileRecord(id: string, bytes: nat, createdAt: int,
                                   filename: string, purpose: string, status: string)

  // ---------------------------------------------------------------------
  // get_files

  /** Non-increasing in `createdAt`: newest first. */
  predicate NewestFirst(s: seq<FileRecord>)
  {
    forall i, j | 0 <= i < j < |s| :: s[i].createdAt >= s[j].createdAt
  }

  /** The records created at time `t`, in their order in `s`. */
  function CreatedAt(s: seq<FileRecord>, t: int): (r: seq<FileRecord>)
    ensures |r| <= |s|
    ensures forall x :: x in r <==> x in s && x.createdAt == t
  {
    if s == [] then []
    else (if s[0].createdAt == t then [s[0]] else []) + CreatedAt(s[1..], t)
  }

  /** Put `x` in front of the first record that is not newer than it; the
      records are those of `s` and `x`. */
  function InsertNewest(x: FileRecord, s: seq<FileRecord>): (r: seq<FileRecord>)
    ensures |r| == |s| + 1
    ensures multiset(r) == multiset(s) + multiset{x}
  {
    if s == [] || s[0].createdAt <= x.createdAt then [x] + s
    else
      assert s == [s[0]] + s[1..];
      [s[0]] + InsertNewest(x, s[1..])
  }

  /** `sorted(files, key=created_at, reverse=True)`: stable, so records
      created at the same time keep their order. */
  function SortNewestFirst(s: seq<FileRecord>): (r: seq<FileRecord>)
    ensures |r| == |s|
  {
    if s == [] then [] else InsertNewest(s[0], SortNewestFirst(s[1..]))
  }

  /** `s[:limit]` with Python's reading of a negative bound: all but the
      last `-limit` items. */
  function TakePrefix<T>(s: seq<T>, limit: int): (r: seq<T>)
    ensures r <= s
    ensures limit >= 0 ==> |r| == if limit < |s| then limit else |s|
    ensures limit < 0 ==> |r| == if |s| + limit > 0 then |s| + limit else 0
  {
    if limit >= 0 then s[..if limit < |s| then limit else |s|]
    else s[..if |s| + limit > 0 then |s| + limit else 0]
  }

  /** `get_files(limit)`, given the records the remote list call returned:
      the front of the newest-first listing. `limit` is 5 unless given. */
  function GetFiles(listed: seq<FileRecord>, limit: int := 5): (r: seq<FileRecord>)
    ensures r <= SortNewestFirst(listed)
    ensures limit >= |listed| ==> |r| == |listed|
  {
    TakePrefix(SortNewestFirst(listed), limit)
  }

  lemma {:induction false} InsertNewestSorted(x: FileRecord, s: seq<FileRecord>)
    requires NewestFirst(s)
    ensures NewestFirst(InsertNewest(x, s))
    decreases |s|
  {
    if !(s == [] || s[0].createdAt <= x.createdAt) {
      var rest := InsertNewest(x, s[1..]);
      InsertNewestSorted(x, s[1..]);
      forall i | 0 <= i < |rest| ensures s[0].createdAt >= rest[i].createdAt {
        assert rest[i] in multiset(rest);
        if rest[i] != x {
          assert rest[i] in multiset(s[1..]);
          var j :| 0 <= j < |s[1..]| && s[1..][j] == rest[i];
          assert s[0].createdAt >= s[j + 1].createdAt;
        }
      }
      var r := [s[0]] + rest;
      forall i, j | 0 <= i < j < |r| ensures r[i].createdAt >= r[j].createdAt {
        if i > 0 { assert r[i] == rest[i - 1] && r[j] == rest[j - 1]; }
        else { assert r[j] == rest[j - 1]; }
      }
    }
  }

  lemma {:induction false} InsertNewestCreatedAt(x: FileRecord, s: seq<FileRecord>, t: int)
    ensures CreatedAt(InsertNewest(x, s), t) ==
            if x.createdAt == t then [x] + CreatedAt(s, t) else CreatedAt(s, t)
    decreases |s|
  {
    if s == [] || s[0].createdAt <= x.createdAt {
      assert ([x] + s)[1..] == s;
    } else {
      var rest := InsertNewest(x, s[1..]);
      InsertNewestCreatedAt(x, s[1..], t);
      assert ([s[0]] + rest)[1..] == rest;
    }
  }

  lemma {:induction false} SortNewestFirstPermutes(s: seq<FileRecord>)
    ensures multiset(SortNewestFirst(s)) == multiset(s)
    decreases |s|
  {
    if s != [] {
      SortNewestFirstPermutes(s[1..]);
      assert s == [s[0]] + s[1..];
    }
  }

  lemma {:induction false} SortNewestFirstSorted(s: seq<FileRecord>)
    ensures NewestFirst(SortNewestFirst(s))
    decreases |s|
  {
    if s != [] {
      SortNewestFirstSorted(s[1..]);
      InsertNewestSorted(s[0], SortNewestFirst(s[1..]));
    }
  }

  lemma {:induction false} SortNewestFirstStable(s: seq<FileRecord>, t: int)
    ensures CreatedAt(SortNewestFirst(s), t) == CreatedAt(s, t)
    decreases |s|
  {
    if s != [] {
      SortNewestFirstStable(s[1..], t);
      InsertNewestCreatedAt(s[0], SortNewestFirst(s[1..]), t);
    }
  }

  /** The sort is a newest-first permutation that keeps ties in input order. */
  lemma SortNewestFirstFacts(s: seq<FileRecord>)
    ensures NewestFirst(SortNewestFirst(s))
    ensures multiset(SortNewestFirst(s)) == multiset(s)
    ensures forall t :: CreatedAt(SortNewestFirst(s), t) == CreatedAt(s, t)
  {
    SortNewestFirstPermutes(s);
    SortNewestFirstSorted(s);
    forall t ensures CreatedAt(SortNewestFirst(s), t) == CreatedAt(s, t) {
      SortNewestFirstStable(s, t);
    }
  }

  lemma {:induction false} CreatedAtPrefix(p: seq<FileRecord>, s: seq<FileRecord>, t: int)
    requires p <= s
    ensures CreatedAt(p, t) <= CreatedAt(s, t)
    decreases |p|
  {
    if p != [] {
      CreatedAtPrefix(p[1..], s[1..], t);
    }
  }

  /** `get_files` returns `min(limit, n)` records (all but the last `-limit`
      when `limit` is negative), newest first, all of them fetched ones. */
  lemma GetFilesCountAndOrder(listed: seq<FileRecord>, limit: int)
    ensures var r := GetFiles(listed, limit);
      && (limit >= 0 ==> |r| == if limit < |listed| then limit else |listed|)
      && (limit < 0 ==> |r| == if |listed| + limit > 0 then |listed| + limit else 0)
      && NewestFirst(r)
      && multiset(r) <= multiset(listed)
  {
    var sorted := SortNewestFirst(listed);
    SortNewestFirstFacts(listed);
    var r := GetFiles(listed, limit);
    assert sorted == r + sorted[|r|..];
    assert multiset(sorted) == multiset(r) + multiset(sorted[|r|..]);
    assert |sorted| == |multiset(sorted)| == |listed|;
  }

  /** In a newest-first sequence nothing after position `n` is newer than
      anything before it. */
  lemma NewestFirstSplit(s: seq<FileRecord>, n: nat)
    requires NewestFirst(s) && n <= |s|
    ensures forall x: FileRecord, y: FileRecord | x in multiset(s[n..]) && y in s[..n] :: x.createdAt <= y.createdAt
  {
    forall x: FileRecord, y: FileRecord | x in multiset(s[n..]) && y in s[..n] ensures x.createdAt <= y.createdAt {
      var i :| 0 <= i < |s[n..]| && s[n..][i] == x;
      var j :| 0 <= j < n && s[..n][j] == y;
      assert s[j] == y && s[n + i] == x;
    }
  }

  /** No record left out is newer than one returned. */
  lemma GetFilesKeepsNewest(listed: seq<FileRecord>, limit: int)
    ensures var r := GetFiles(listed, limit);
      forall x, y | x in multiset(listed) - multiset(r) && y in r :: x.createdAt <= y.createdAt
  {
    var sorted := SortNewestFirst(listed);
    SortNewestFirstSorted(listed);
    SortNewestFirstPermutes(listed);
    var r := GetFiles(listed, limit);
    var n := |r|;
    assert r == sorted[..n];
    assert sorted == sorted[..n] + sorted[n..];
    assert multiset(listed) == multiset(r) + multiset(sorted[n..]);
    assert multiset(listed) - multiset(r) == multiset(sorted[n..]);
    NewestFirstSplit(sorted, n);
  }

  /** Records created at the same moment come out in the order they were
      fetched: for each creation time, those returned are a prefix of those
      fetched. */
  lemma GetFilesKeepsTieOrder(listed: seq<FileRecord>, limit: int, t: int)
    ensures CreatedAt(GetFiles(listed, limit), t) <= CreatedAt(listed, t)
  {
    SortNewestFirstStable(listed, t);
    CreatedAtPrefix(GetFiles(listed, limit), SortNewestFirst(listed), t);
  }

  // ---------------------------------------------------------------------
  // The polling commands

  /** One `File.retrieve` answer: a status, or the exception the call raised. */
  datatype Retrieval = Reported(status: string) | RemoteFailure(message: string)

  /** What a command visibly does. */
  datatype Event =
    | Queried(status: string)   // a status came back
    | Slept(seconds: nat)       // `time.sleep`
    | Logged(line: string)      // `console.log`
    | Shown(line: string)       // the live status line was updated

  /** How a command ends, if it does: normally, by an exception, or not yet
      when the responses supplied run out. */
  datatype Run = Returned | Raised(message: string) | Polling

  /** The index of the first response that ends a loop stopping on `stop`
      (or on a failed query), or the number of responses if none does. */
  function FirstStop(responses: seq<Retrieval>, stop: string -> bool): (k: nat)
    ensures k <= |responses|
    ensures forall j | 0 <= j < k :: responses[j].Reported? && !stop(responses[j].status)
    ensures k < |responses| ==> responses[k].RemoteFailure? || stop(responses[k].status)
  {
    if responses == [] then 0
    else if responses[0].RemoteFailure? || stop(responses[0].status) then 0
    else 1 + FirstStop(responses[1..], stop)
  }

  /** A loop that stopped ignores every later response; one still polling
      at the end of a prefix carries on into what follows. */
  lemma {:induction false} FirstStopAppend(a: seq<Retrieval>, b: seq<Retrieval>, stop: string -> bool)
    ensures FirstStop(a + b, stop) == if FirstStop(a, stop) < |a| then FirstStop(a, stop) else |a| + FirstStop(b, stop)
    decreases |a|
  {
    if a != [] {
      assert (a + b)[1..] == a[1..] + b;
      FirstStopAppend(a[1..], b, stop);
    } else {
      assert a + b == b;
    }
  }

  /** Statuses that never stop the loop keep it polling to the last one. */
  lemma NoStopKeepsPolling(responses: seq<Retrieval>, stop: string -> bool)
    requires forall j | 0 <= j < |responses| :: responses[j].Reported? && !stop(responses[j].status)
    ensures FirstStop(responses, stop) == |responses|
  {
  }

  predicate IsProcessed(s: string) { s == "processed" }

  predicate IsSettled(s: string) { s == "pending" || s == "processed" }

  function UploadedLine(fileId: string): string
  {
    "[bold green]File " + fileId + " uploaded successfully!"
  }

  function StatusLine(s: string): string
  {
    "File status: " + s
  }

  /** The loop of `upload`: `created` is the id `File.create` returned or
      the exception reading or creating the file raised; `responses` are the
      successive status answers; `poll` is the interval, 5 unless given. */
  method Upload(created: Result<string, string>, responses: seq<Retrieval>, poll: nat := 5)
    returns (run: Run, events: seq<Event>)
    ensures created.Err? ==> run == Raised(created.error) && events == []
    ensures created.Ok? ==>
      var k := FirstStop(responses, IsProcessed);
      && run == (if k == |responses| then Polling
                 else if responses[k].RemoteFailure? then Raised(responses[k].message)
                 else Returned)
      // two events per status that is not "processed": the query, then the sleep
      && |events| == 2 * k + (if run == Returned then 2 else 0)
      && (forall j | 0 <= j < k ::
            events[2 * j] == Queried(responses[j].status) && events[2 * j + 1] == Slept(poll))
      // the last query reports "processed", then success is logged
      && (run == Returned ==>
            events[2 * k] == Queried("processed") && events[2 * k + 1] == Logged(UploadedLine(created.value)))
  {
    if created.Err? {
      return Raised(created.error), [];
    }
    var fileId := created.value;
    ghost var k := FirstStop(responses, IsProcessed);
    run, events := Polling, [];
    var i := 0;
    while i < |responses|
      invariant 0 <= i <= k
      invariant |events| == 2 * i
      invariant forall j | 0 <= j < i ::
        events[2 * j] == Queried(responses[j].status) && events[2 * j + 1] == Slept(poll)
      decreases |responses| - i
    {
      match responses[i] {
        case RemoteFailure(message) =>
          run := Raised(message);
          break;
        case Reported(fileStatus) =>
          if fileStatus == "processed" {
            events := events + [Queried(fileStatus), Logged(UploadedLine(fileId))];
            run := Returned;
            break;
          }
          events := events + [Queried(fileStatus), Slept(poll)];
      }
      i := i + 1;
    }
  }

  /** The live line once the first `fetched` answers were statuses. */
  function ShownAfter(fileId: string, responses: seq<Retrieval>, fetched: int): string
    requires fetched <= |responses|
  {
    if fetched <= 0 || !responses[fetched - 1].Reported? then "Monitoring status of file " + fileId + "..."
    else StatusLine(responses[fetched - 1].status)
  }

  /** The loop of `status`: stop at the first "pending" or "processed"; the
      live line shows the status last fetched. */
  method Status(fileId: string, responses: seq<Retrieval>)
    returns (run: Run, events: seq<Event>, shown: string)
    ensures
      var k := FirstStop(responses, IsSettled);
      && run == (if k == |responses| then Polling
                 else if responses[k].RemoteFailure? then Raised(responses[k].message)
                 else Returned)
      // three events per unsettled status: the query, the update, the sleep
      && |events| == 3 * k + (if run == Returned then 2 else 0)
      && (forall j | 0 <= j < k ::
            && events[3 * j] == Queried(responses[j].status)
            && events[3 * j + 1] == Shown(StatusLine(responses[j].status))
            && events[3 * j + 2] == Slept(5))
      && (run == Returned ==>
            events[3 * k] == Queried(responses[k].status)
            && events[3 * k + 1] == Shown(StatusLine(responses[k].status)))
      // the live line always shows the most recently fetched status
      && shown == ShownAfter(fileId, responses, if run == Returned then k + 1 else k)
  {
    ghost var k := FirstStop(responses, IsSettled);
    run, events := Polling, [];
    shown := "Monitoring status of file " + fileId + "...";
    var i := 0;
    while i < |responses|
      invariant 0 <= i <= k
      invariant |events| == 3 * i
      invariant forall j | 0 <= j < i ::
        && events[3 * j] == Queried(responses[j].status)
        && events[3 * j + 1] == Shown(StatusLine(responses[j].status))
        && events[3 * j + 2] == Slept(5)
      invariant shown == ShownAfter(fileId, responses, i)
      decreases |responses| - i
    {
      match responses[i] {
        case RemoteFailure(message) =>
          run := Raised(message);
          break;
        case Reported(fileStatus) =>
          shown := StatusLine(fileStatus);
          if fileStatus == "pending" || fileStatus == "processed" {
            events := events + [Queried(fileStatus), Shown(shown)];
            run := Returned;
            break;
          }
          events := events + [Queried(fileStatus), Shown(shown), Slept(5)];
      }
      i := i + 1;
    }
  }

  // ---------------------------------------------------------------------
  // delete

  /** What `File.delete` did. */
  datatype Deletion = Deleted | DeleteFailed(message: string)

  /** The `delete` command: a failure of the remote call is logged and the
      command still returns normally; only a deletion that went through is
      reported as a success. */
  function Delete(fileId: string, remote: Deletion): (r: (Run, seq<Event>))
    ensures r.0 == Returned
    ensures |r.1| == 1 && r.1[0].Logged?
    ensures r.1[0] == Logged("[bold red]File " + fileId + " deleted successfully!") <==> remote == Deleted
    ensures remote.DeleteFailed? ==>
      r.1[0] == Logged("[bold red]Error deleting file " + fileId + ": " + remote.message)
  {
    match remote
    case Deleted => (Returned, [Logged("[bold red]File " + fileId + " deleted successfully!")])
    case DeleteFailed(e) =>
      var line := "[bold red]Error deleting file " + fileId + ": " + e;
      assert line[10] != ("[bold red]File " + fileId + " deleted successfully!")[10];
      (Returned, [Logged(line)])
  }

  /** Upload with the answers "pending", "pending", "processed": three
      queries, two sleeps, then success. */
  method UploadExample()
  {
    var responses := [Reported("pending"), Reported("pending"), Reported("processed")];
    assert FirstStop(responses, IsProcessed) == 2 by {
      assert FirstStop(responses[2..], IsProcessed) == 0;
      assert responses[1..][1..] == responses[2..];
    }
    var run, events := Upload(Ok("file-1"), responses);
    assert run == Returned;
    assert events == [Queried("pending"), Slept(5), Queried("pending"), Slept(5),
                      Queried("processed"), Logged(UploadedLine("file-1"))];
  }
}
