/**
 * QQ Music's `DownloadManager`: a download of an id is launched unless the
 * id is already in flight, and the job removes the id when it ends. As
 * written, nothing ever adds an id to the in-flight set, so the guard never
 * fires; `LaunchAsWritten` models that code and `Launch` the evidently
 * intended one, which the manager below uses.
 */
module QQDownloader {

  /** `download(id)` as written: the in-flight set is only read. The result is the new set and whether a job was launched. */
  function LaunchAsWritten(downloadingIds: set<string>, id: string): (r: (set<string>, bool))
    ensures r.0 == downloadingIds
    ensures r.1 <==> id !in downloadingIds
  {
    if id in downloadingIds then (downloadingIds, false) else (downloadingIds, true)
  }

  /** `download(id)` with the id recorded as in flight when its job is launched. */
  function Launch(downloadingIds: set<string>, id: string): (r: (set<string>, bool))
    ensures r.1 <==> id !in downloadingIds
    ensures r.0 == downloadingIds + {id}
  {
    if id in downloadingIds then (downloadingIds, false) else (downloadingIds + {id}, true)
  }

  /** As written, the set stays empty whatever is downloaded, so two requests for one id launch two jobs. */
  lemma DuplicateLaunchAsWritten(id: string)
    ensures LaunchAsWritten({}, id) == ({}, true)
    ensures LaunchAsWritten(LaunchAsWritten({}, id).0, id).1
  {
  }

  /** With the id recorded, a second request for an id in flight launches nothing. */
  lemma DuplicateLaunchSuppressed(downloadingIds: set<string>, id: string)
    ensures !Launch(Launch(downloadingIds, id).0, id).1
    ensures Launch(Launch(downloadingIds, id).0, id).0 == Launch(downloadingIds, id).0
  {
    assert id in Launch(downloadingIds, id).0;
  }

  /** What a launched job's `QrcDownloader.downloadLyrics(id)` gave: a response, or an exception. */
  datatype JobOutcome<R> = Downloaded(response: R) | Threw

  /** The callback a finished job calls. */
  datatype Callback<R> = DownloadFinished(response: R) | DownloadFailed(id: string)

  class DownloadManager<R> {
    var downloadingIds: set<string>
    var launched: seq<string>

    constructor ()
      ensures downloadingIds == {} && launched == []
    {
      downloadingIds := {};
      launched := [];
    }

    /** `download(id)`: nothing while the id is in flight; otherwise a job for it is launched. */
    method Download(id: string) returns (started: bool)
      modifies this
      ensures (downloadingIds, started) == Launch(old(downloadingIds), id)
      ensures started ==> launched == old(launched) + [id]
      ensures !started ==> launched == old(launched)
    {
      if id in downloadingIds {
        return false;
      }
      downloadingIds := downloadingIds + {id};
      launched := launched + [id];
      started := true;
    }

    /** A launched job ending: its one callback, and the id leaves the in-flight set whatever the outcome. */
    method Complete(id: string, outcome: JobOutcome<R>) returns (callback: Callback<R>)
      modifies this
      ensures downloadingIds == old(downloadingIds) - {id} && launched == old(launched)
      ensures outcome.Downloaded? ==> callback == DownloadFinished(outcome.response)
      ensures outcome.Threw? ==> callback == DownloadFailed(id)
    {
      match outcome {
        case Downloaded(response) => callback := DownloadFinished(response);
        case Threw => callback := DownloadFailed(id);
      }
      downloadingIds := downloadingIds - {id};
    }
  }
}
