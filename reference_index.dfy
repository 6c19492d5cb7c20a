/**
 * Building the reference index from the bundled beacon files: every file that reads and parses
 * contributes its records, files that fail are skipped, and the records are keyed by beaconUid
 * with the later record winning on a duplicate uid.
 */
module ReferenceIndex {
  import opened BeaconTypes

  /** The bundled reference files, in the order they are loaded. */
  const BeaconFileNames: seq<string> := [
    "beacons_gg0.txt", "beacons_gg1.txt", "beacons_gg2b1.txt",
    "beacons_gg3b2.txt", "beacons_gg3b3.txt", "beacons_gg4.txt", "beacons_gg_out.txt"
  ]

  /**
   * The responses of the files that read and parse, in file order. `read` gives the outcome of
   * opening and parsing one file; None stands for any exception the attempt throws.
   */
  function Loaded(files: seq<string>, read: string -> Option<BeaconResponse>): (r: seq<BeaconResponse>)
    ensures |r| <= |files|
  {
    if files == [] then []
    else
      var prefix := Loaded(files[..|files| - 1], read);
      match read(files[|files| - 1])
      case Some(response) => prefix + [response]
      case None => prefix
  }

  /** The items of all responses, concatenated in order. */
  function Records(responses: seq<BeaconResponse>): (records: seq<BeaconRecord>)
  {
    if responses == [] then []
    else Records(responses[..|responses| - 1]) + responses[|responses| - 1].items
  }

  /** Kotlin's `associateBy { it.beaconUid }`: key each record by its uid, later records overwriting. */
  function AssociateBy(records: seq<BeaconRecord>): (m: BeaconIndex)
    ensures forall uid :: uid in m ==> m[uid].beaconUid == uid && m[uid] in records
  {
    if records == [] then map[]
    else
      var last := records[|records| - 1];
      AssociateBy(records[..|records| - 1])[last.beaconUid := last]
  }

  /** The index the loader builds from the given files. */
  function IndexOf(files: seq<string>, read: string -> Option<BeaconResponse>): (m: BeaconIndex)
    ensures forall uid :: uid in m ==> m[uid].beaconUid == uid
  {
    AssociateBy(Records(Loaded(files, read)))
  }

  function Uids(records: seq<BeaconRecord>): (uids: set<string>)
  {
    set r | r in records :: r.beaconUid
  }

  /** Loading distributes over concatenation of the file list: order is file order. */
  lemma {:induction false} LoadedConcat(a: seq<string>, b: seq<string>, read: string -> Option<BeaconResponse>)
    ensures Loaded(a + b, read) == Loaded(a, read) + Loaded(b, read)
  {
    if b != [] {
      var n := |b| - 1;
      assert (a + b)[..|a + b| - 1] == a + b[..n];
      LoadedConcat(a, b[..n], read);
    } else {
      assert a + b == a;
    }
  }

  /** A response is loaded exactly when some file reads and parses to it. */
  lemma {:induction false} LoadedMembership(files: seq<string>, read: string -> Option<BeaconResponse>, response: BeaconResponse)
    ensures response in Loaded(files, read)
        <==> exists i :: 0 <= i < |files| && read(files[i]) == Some(response)
  {
    if files != [] {
      var n := |files| - 1;
      LoadedMembership(files[..n], read, response);
      if exists i :: 0 <= i < |files| && read(files[i]) == Some(response) {
        var i :| 0 <= i < |files| && read(files[i]) == Some(response);
        if i < n {
          assert files[..n][i] == files[i];
        }
      }
    }
  }

  /** A failing file contributes nothing and does not stop the files after it. */
  lemma FailedFileSkipped(before: seq<string>, file: string, after: seq<string>, read: string -> Option<BeaconResponse>)
    requires read(file).None?
    ensures Loaded(before + [file] + after, read) == Loaded(before + after, read)
    ensures IndexOf(before + [file] + after, read) == IndexOf(before + after, read)
  {
    LoadedConcat(before + [file], after, read);
    LoadedConcat(before, [file], read);
    LoadedConcat(before, after, read);
    assert Loaded([file], read) == [] by {
      assert [file][..0] == [];
    }
  }

  lemma {:induction false} RecordsConcat(a: seq<BeaconResponse>, b: seq<BeaconResponse>)
    ensures Records(a + b) == Records(a) + Records(b)
  {
    if b != [] {
      var n := |b| - 1;
      assert (a + b)[..|a + b| - 1] == a + b[..n];
      RecordsConcat(a, b[..n]);
    } else {
      assert a + b == a;
    }
  }

  /** A record is in the flattened list exactly when it is an item of one of the responses. */
  lemma {:induction false} RecordsMembership(responses: seq<BeaconResponse>, r: BeaconRecord)
    ensures r in Records(responses) <==> exists k :: 0 <= k < |responses| && r in responses[k].items
  {
    if responses != [] {
      var n := |responses| - 1;
      RecordsMembership(responses[..n], r);
      if exists k :: 0 <= k < |responses| && r in responses[k].items {
        var k :| 0 <= k < |responses| && r in responses[k].items;
        if k < n {
          assert responses[..n][k] == responses[k];
        }
      }
    }
  }

  /** The index's key set is exactly the set of uids of the records. */
  lemma {:induction false} AssociateByKeys(records: seq<BeaconRecord>)
    ensures AssociateBy(records).Keys == Uids(records)
  {
    if records != [] {
      var n := |records| - 1;
      AssociateByKeys(records[..n]);
      assert records == records[..n] + [records[n]];
      assert Uids(records) == Uids(records[..n]) + {records[n].beaconUid};
    }
  }

  /** Last write wins: the record a uid maps to is the last record carrying that uid. */
  lemma {:induction false} AssociateByLastWins(records: seq<BeaconRecord>, i: nat)
    requires i < |records|
    requires forall j :: i < j < |records| ==> records[j].beaconUid != records[i].beaconUid
    ensures records[i].beaconUid in AssociateBy(records)
    ensures AssociateBy(records)[records[i].beaconUid] == records[i]
  {
    var n := |records| - 1;
    if i < n {
      AssociateByLastWins(records[..n], i);
    }
  }

  /** Indexing a concatenation is the right-biased union of the two indexes. */
  lemma {:induction false} AssociateByConcat(a: seq<BeaconRecord>, b: seq<BeaconRecord>)
    ensures AssociateBy(a + b) == AssociateBy(a) + AssociateBy(b)
  {
    if b != [] {
      var n := |b| - 1;
      assert (a + b)[..|a + b| - 1] == a + b[..n];
      AssociateByConcat(a, b[..n]);
    } else {
      assert a + b == a;
    }
  }

  /**
   * The index over a file list is the index over its first part, overwritten by the index over
   * its second part: a duplicate uid in a later file replaces the earlier record.
   */
  lemma IndexOfConcat(a: seq<string>, b: seq<string>, read: string -> Option<BeaconResponse>)
    ensures IndexOf(a + b, read) == IndexOf(a, read) + IndexOf(b, read)
  {
    LoadedConcat(a, b, read);
    RecordsConcat(Loaded(a, read), Loaded(b, read));
    AssociateByConcat(Records(Loaded(a, read)), Records(Loaded(b, read)));
  }

  /** A uid is a key of the index exactly when some successfully read file lists a record with it. */
  lemma IndexKeys(files: seq<string>, read: string -> Option<BeaconResponse>, uid: string)
    ensures uid in IndexOf(files, read)
        <==> exists i, r :: 0 <= i < |files| && read(files[i]).Some?
                         && r in read(files[i]).value.items && r.beaconUid == uid
  {
    var responses := Loaded(files, read);
    AssociateByKeys(Records(responses));
    if uid in IndexOf(files, read) {
      var r :| r in Records(responses) && r.beaconUid == uid;
      RecordsMembership(responses, r);
      var k :| 0 <= k < |responses| && r in responses[k].items;
      LoadedMembership(files, read, responses[k]);
      var i :| 0 <= i < |files| && read(files[i]) == Some(responses[k]);
      assert read(files[i]).Some? && r in read(files[i]).value.items;
    }
    if exists i, r :: 0 <= i < |files| && read(files[i]).Some?
                      && r in read(files[i]).value.items && r.beaconUid == uid {
      var i, r :| 0 <= i < |files| && read(files[i]).Some?
                  && r in read(files[i]).value.items && r.beaconUid == uid;
      var response := read(files[i]).value;
      LoadedMembership(files, read, response);
      var k :| 0 <= k < |responses| && responses[k] == response;
      RecordsMembership(responses, r);
      assert r in Records(responses);
    }
  }
}
