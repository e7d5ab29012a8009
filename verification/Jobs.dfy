/** The async translate jobs: the table (`apps/api/app/jobs.py`), the GET route (`apps/api/app/main.py`), and the
    Worker and onFailure handlers (`worker_handler.py`, `failure_handler.py`), one call at a time. */
module Jobs {
  import opened Options

  datatype Direction = EsToCak | CakToEs
  datatype Request = Request(text: string, direction: Direction)
  datatype Status = Pending | Succeeded | Failed

  /** A DynamoDB item: any attribute may be absent. */
  datatype Item = Item(status: Option<Status>, text: Option<string>, direction: Option<Direction>, ttl: Option<int>,
                       translation: Option<string>, statusCode: Option<int>, error: Option<string>)

  /** The fields of a terminal write. */
  datatype Terminal = Success(translation: string) | Failure(statusCode: int, error: string)

  type Items = map<string, Item>

  const JOB_TTL_SECONDS := 60 * 60
  const WORKER_FAILURE := Failure(504, "El servicio de traducción tardó demasiado en responder. Inténtalo de nuevo.")
  const EMPTY := Item(None, None, None, None, None, None, None)

  function PendingItem(request: Request, now: int): Item {
    Item(Some(Pending), Some(request.text), Some(request.direction), Some(now + JOB_TTL_SECONDS), None, None, None)
  }

  function Write(item: Item, t: Terminal): Item {
    match t
    case Success(translation) => item.(status := Some(Succeeded), translation := Some(translation))
    case Failure(code, error) => item.(status := Some(Failed), statusCode := Some(code), error := Some(error))
  }

  /** `update_item` guarded by `attribute_not_exists(status) OR status = pending`; it creates a missing item. */
  function ConditionalUpdate(items: Items, id: string, t: Terminal): Items {
    var item := if id in items then items[id] else EMPTY;
    if item.status == None || item.status == Some(Pending) then items[id := Write(item, t)] else items
  }

  datatype Lookup = Absent | Found(item: Item) | KeyError

  /** `get_job`: absent, or expired and not yet swept, is `Absent`. */
  function GetJob(items: Items, id: string, now: int): Lookup {
    if id !in items then Absent
    else if items[id].ttl.None? then KeyError
    else if items[id].ttl.value < now then Absent
    else Found(items[id])
  }

  datatype Input = Gone | Submitted(request: Request) | Malformed

  /** `get_job_input`, which does not look at the ttl. */
  function GetJobInput(items: Items, id: string): Input {
    if id !in items then Gone
    else if items[id].text.None? || items[id].direction.None? then Malformed
    else Submitted(Request(items[id].text.value, items[id].direction.value))
  }

  datatype Response = BadRequest | NotFound | StillPending | Done(t: Terminal) | ServerError

  /** `get_translate_job`; `wellFormed` is whether the id parses as a UUID. */
  function GetTranslateJob(items: Items, id: string, now: int, wellFormed: bool): Response {
    if !wellFormed then BadRequest
    else
      match GetJob(items, id, now)
      case Absent => NotFound
      case KeyError => ServerError
      case Found(item) =>
        if item.status.None? then ServerError
        else if item.status.value == Succeeded then
          (if item.translation.None? then ServerError else Done(Success(item.translation.value)))
        else if item.status.value == Failed then
          (if item.statusCode.None? || item.error.None? then ServerError
           else Done(Failure(item.statusCode.value, item.error.value)))
        else StillPending
  }

  /** The item has every attribute the readers of its status use. */
  predicate Complete(item: Item) {
    && item.status.Some? && item.text.Some? && item.direction.Some? && item.ttl.Some?
    && (item.status.value == Succeeded ==> item.translation.Some?)
    && (item.status.value == Failed ==> item.statusCode.Some? && item.error.Some?)
  }

  predicate IsTerminal(item: Item) {
    item.status == Some(Succeeded) || item.status == Some(Failed)
  }

  /** The GET route never fails on an absent or complete item, and a malformed id never reaches the table. */
  lemma CompleteItemsAreServed(items: Items, id: string, now: int, wellFormed: bool)
    requires id in items ==> Complete(items[id])
    ensures GetTranslateJob(items, id, now, wellFormed) != ServerError
    ensures GetTranslateJob(items, id, now, wellFormed) == BadRequest <==> !wellFormed
  {
  }

  /** A terminal write keeps the item complete exactly when there was a complete item to write to: on a swept job the
      `attribute_not_exists` clause lets it create an item without ttl, which every later GET fails on. */
  lemma TerminalWriteNeedsItem(items: Items, id: string, t: Terminal, now: int)
    requires id in items ==> Complete(items[id])
    ensures id in ConditionalUpdate(items, id, t)
    ensures Complete(ConditionalUpdate(items, id, t)[id]) <==> id in items
    ensures id !in items ==> GetTranslateJob(ConditionalUpdate(items, id, t), id, now, true) == ServerError
  {
  }

  /** What is written to a pending job is what its GETs answer from then on, until it expires. */
  lemma WrittenAnswerIsServed(items: Items, id: string, t: Terminal, now: int)
    requires id in items && items[id].status == Some(Pending) && items[id].ttl.Some?
    ensures GetTranslateJob(ConditionalUpdate(items, id, t), id, now, true)
      == if items[id].ttl.value < now then NotFound else Done(t)
  {
  }

  /** The first terminal write decides; a second one changes nothing. */
  lemma FirstWriteWins(items: Items, id: string, first: Terminal, second: Terminal)
    ensures var once := ConditionalUpdate(items, id, first);
      IsTerminal(once[id]) && ConditionalUpdate(once, id, second) == once
  {
    var item := if id in items then items[id] else EMPTY;
    assert item.status != None && item.status != Some(Pending) ==>
        item.status.value == Succeeded || item.status.value == Failed;
  }

  /** A created job reads as pending for an hour and as not found afterwards, swept or not. */
  lemma CreatedJobExpires(items: Items, id: string, request: Request, now: int, later: int)
    ensures var created := items[id := PendingItem(request, now)];
      && GetTranslateJob(created, id, later, true) == (if later <= now + 3600 then StillPending else NotFound)
      && GetTranslateJob(created - {id}, id, later, true) == NotFound
      && GetJobInput(created, id) == Submitted(request)
  {
    assert id !in items[id := PendingItem(request, now)] - {id};
  }

  // ------------------------------------------------------------- the table in place

  class JobsTable {
    var items: Items

    constructor ()
      ensures items == map[]
    {
      items := map[];
    }

    /** `create_job`, with the generated id and the clock as parameters. */
    method CreateJob(request: Request, id: string, now: int)
      modifies this
      ensures items == old(items)[id := PendingItem(request, now)]
    {
      items := items[id := Item(Some(Pending), Some(request.text), Some(request.direction),
                                Some(now + JOB_TTL_SECONDS), None, None, None)];
    }

    /** `_conditional_update`. */
    method UpdateIfPending(id: string, t: Terminal) returns (written: bool)
      modifies this
      ensures items == ConditionalUpdate(old(items), id, t)
      ensures written <==> id !in old(items) || !IsTerminal(old(items)[id])
    {
      var item := if id in items then items[id] else EMPTY;
      written := false;
      if item.status.None? || item.status.value == Pending {
        items := items[id := Write(item, t)];
        written := true;
      }
    }

    method MarkSucceeded(id: string, translation: string)
      modifies this
      ensures items == ConditionalUpdate(old(items), id, Success(translation))
    {
      var _ := UpdateIfPending(id, Success(translation));
    }

    method MarkFailed(id: string, statusCode: int, error: string)
      modifies this
      ensures items == ConditionalUpdate(old(items), id, Failure(statusCode, error))
    {
      var _ := UpdateIfPending(id, Failure(statusCode, error));
    }

    /** The Worker's `handler`, undisturbed; `endpoint` is what the model endpoint answers.  False is a crash. */
    method WorkerHandler(id: string, endpoint: Request -> Terminal) returns (returned: bool)
      modifies this
      ensures returned <==> GetJobInput(old(items), id) != Malformed
      ensures items == match GetJobInput(old(items), id)
                       case Submitted(request) => ConditionalUpdate(old(items), id, endpoint(request))
                       case _ => old(items)
    {
      var input := GetJobInput(items, id);
      if input.Gone? {
        return true;
      }
      if input.Malformed? {
        return false;
      }
      var result := endpoint(input.request);
      match result {
        case Failure(statusCode, error) => MarkFailed(id, statusCode, error);
        case Success(translation) => MarkSucceeded(id, translation);
      }
      return true;
    }

    /** The onFailure `handler`. */
    method FailureHandler(id: string)
      modifies this
      ensures items == ConditionalUpdate(old(items), id, WORKER_FAILURE)
    {
      MarkFailed(id, WORKER_FAILURE.statusCode, WORKER_FAILURE.error);
    }
  }
}
