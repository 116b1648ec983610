/**
 The rows of the edge store. SHA-256 digests are taken to be injective, so a digest is
 represented by what it digests: a note revision by its note id and content hash, and a
 job id by the constructor for its prefix together with the digested value.
 */
module Tables {
  import opened Sequences

  datatype Revision = Revision(noteId: string, contentHash: string)

  /** A stored note body; `watchUserId` is empty unless a watched author posted it. */
  datatype Note = Note(revision: Revision, watchUserId: string, detail: string) {
    predicate Watched() { watchUserId != "" }
  }

  datatype RunId = Recommendation(key: string) | ProfileSweep(users: seq<string>)

  datatype JobId =
    | Watch(revisions: seq<Revision>)     // xhs-<digest of revisions>
    | Screen(revisions: seq<Revision>)    // xhs-screen-<digest of revisions>
    | Single(revision: Revision)          // xhs-single-<revision>
    | Filter(run: RunId)                  // xhs-filter-<digest of run>
    | RunSummary(run: RunId)              // xhs-summary-<digest of run>
    | Screened(parent: JobId)             // xhs-screened-<digest of parent>
    | ProfileFilter(users: seq<string>)   // xhs-profile-filter-<digest>
    | DigestOf(date: string)              // xhs-digest-<date>
    | Dashboard(request: string)          // xhs-dashboard-<digest>
    | Command(message: string)            // xhs-cmd-<digest>

  /** What the `job_id` column of a note holds. */
  datatype Owner = OwnedBy(job: JobId) | ReservedFor(run: RunId)

  datatype Status = Pending | Processing | Failed | Completed | Ready | Sent

  datatype Kind =
    | Summary | ClassifyRecommendations | ClassifyNotes | ClassifyProfiles
    | SingleNote | DailyDigest | ManualMessage

  datatype Verdict = Include | Review | Exclude

  /**
   One entry of a screening answer. An id is None when absent or empty, a verdict when it is none of
   the three, a score when it is not a number; a score left out reads as 0.
   */
  datatype Decision<+Id> =
    | Malformed
    | Decision(candidateId: Option<Id>, noteId: Option<Id>, verdict: Option<Verdict>,
               score: Option<real>, confidence: Option<real>)

  datatype Result =
    | Text(summary: Option<string>, model: string)
    | Decisions(items: seq<Decision<Revision>>)
    | Profiles(profiles: seq<Decision<string>>)

  /** `deliver` is deliver_to_feishu; `live` says the fetch source is not the cache. */
  datatype Payload = Payload(notes: seq<Note>, candidates: seq<Revision>, users: seq<string>,
                             deliver: bool, live: bool)

  datatype Job = Job(status: Status, kind: Kind, payload: Payload, created: real, available: real,
                     attempts: nat, lease: Option<nat>, leaseUntil: Option<real>,
                     result: Option<Result>, run: Option<RunId>)

  datatype NoteRow = NoteRow(body: Note, firstSeen: real, owner: Option<Owner>)

  datatype RunStatus =
    | Running | Collected | CollectFailed | FilterQueued | FilterFailed | Filtered
    | SummaryQueued | SummaryReady | RunSent

  datatype RunRow = RunRow(status: RunStatus, classified: nat, selected: nat, review: nat, rejected: nat)

  datatype ItemState = ItemPending | ItemQueued | ItemFilterFailed | Decided(verdict: Verdict)

  datatype ItemRow = ItemRow(state: ItemState, rank: int)

  /** The whole database; lease tokens are uuids, modelled by a counter that never repeats. */
  datatype Db = Db(jobs: map<JobId, Job>,
                   notes: map<Revision, NoteRow>,
                   runs: map<RunId, RunRow>,
                   items: map<(RunId, Revision), ItemRow>,
                   screenings: map<(RunId, Revision), Verdict>,
                   topics: map<Revision, Verdict>,
                   profiles: map<(RunId, string), Verdict>,
                   parts: set<(JobId, nat)>,
                   nextToken: nat)

  const EMPTY := Db(map[], map[], map[], map[], map[], map[], map[], {}, 0)

  /** Progress of a job: open, then completed, ready and sent. */
  function Rank(status: Status): nat {
    match status
    case Pending | Processing | Failed => 0
    case Completed => 1
    case Ready => 2
    case Sent => 3
  }

  function KindOf(id: JobId): Kind {
    match id
    case Watch(_) | RunSummary(_) | Screened(_) | Command(_) => Summary
    case Screen(_) => ClassifyNotes
    case Filter(_) => ClassifyRecommendations
    case ProfileFilter(_) => ClassifyProfiles
    case Single(_) => SingleNote
    case DigestOf(_) => DailyDigest
    case Dashboard(_) => ManualMessage
  }

  function RunOf(id: JobId): Option<RunId> {
    match id
    case Filter(run) => Some(run)
    case RunSummary(run) => Some(run)
    case ProfileFilter(users) => Some(ProfileSweep(users))
    case _ => None
  }
}
