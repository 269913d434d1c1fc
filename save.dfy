/**
 * `save_image` in its two versions: fetch one image and write it to its
 * path, classified by the response. `LibOutcome` and `MainOutcome` say what
 * each version returns and whether the file comes to exist;
 * `LibSaveImage` and `MainSaveImage` carry it out on a `Host`.
 *
 * `canCreate` says whether `File::create` succeeds, which it does when the
 * thread directory exists. Every `unwrap` on a failure ends the program,
 * which is the `Crashed` result.
 */
module Save {
  import opened Optional
  import opened Text
  import opened Machine

  /** `Ok(name)` as returned (whether or not a file was written), `Err(message)`, or a panic. */
  datatype SaveResult = Returned(name: string) | Failed(message: string) | Crashed

  /** The result, and whether the file was created on the way to it. */
  datatype Effect = Effect(created: bool, result: SaveResult)

  /** src/lib.rs: any 2xx reply is written; every other reply still returns the name. */
  function LibOutcome(resp: Response, name: string, canCreate: bool): (e: Effect)
    ensures e.created <==> resp.Reply? && IsSuccess(resp.status) && canCreate
    ensures e.result.Crashed? <==> resp.Reply? && IsSuccess(resp.status) && !(canCreate && resp.body.Some?)
    ensures e.result.Failed? <==> resp.TransportError?
    ensures e.result.Failed? ==> e.result.message == resp.reason
    ensures e.result.Returned? ==> e.result.name == name
  {
    match resp
    case TransportError(reason) => Effect(false, Failed(reason))
    case Reply(status, body) =>
      if !IsSuccess(status) then Effect(false, Returned(name))
      else if !canCreate then Effect(false, Crashed)
      else if body.None? then Effect(true, Crashed)
      else Effect(true, Returned(name))
  }

  const NotFoundMessage: string := "File not found"

  /** The message for an unexpected status: a fixed lead followed by the status in decimal. */
  function StatusMessage(status: nat): string
  {
    "Received response status: " + Decimal(status)
  }

  /** src/main.rs: only 200 is written; 404 and every other status are errors; a transport error ends the program. */
  function MainOutcome(resp: Response, name: string, canCreate: bool): (e: Effect)
    ensures e.created <==> resp.Reply? && resp.status == 200 && canCreate
    ensures e.result.Crashed? <==> resp.TransportError? || (resp.Reply? && resp.status == 200 && !(canCreate && resp.body.Some?))
    ensures e.result.Returned? ==> resp.Reply? && resp.status == 200 && e.result.name == name
    ensures e.result.Failed? <==> resp.Reply? && resp.status != 200
    ensures resp.Reply? && resp.status == 404 ==> e.result == Failed(NotFoundMessage)
    ensures resp.Reply? && resp.status != 200 && resp.status != 404 ==> e.result == Failed(StatusMessage(resp.status))
  {
    match resp
    case TransportError(_) => Effect(false, Crashed)
    case Reply(status, body) =>
      if status == 200 then
        if !canCreate then Effect(false, Crashed)
        else if body.None? then Effect(true, Crashed)
        else Effect(true, Returned(name))
      else if status == 404 then Effect(false, Failed(NotFoundMessage))
      else Effect(false, Failed(StatusMessage(status)))
  }

  /** The status message names the status: different statuses give different messages, none of them the not-found one. */
  lemma StatusMessageNamesStatus(a: nat, b: nat)
    ensures StatusMessage(a) == StatusMessage(b) ==> a == b
    ensures StatusMessage(a) != NotFoundMessage
  {
    var prefix := "Received response status: ";
    if StatusMessage(a) == StatusMessage(b) {
      assert Decimal(a) == StatusMessage(a)[|prefix|..];
      assert Decimal(b) == StatusMessage(b)[|prefix|..];
      DecimalRoundTrip(a);
      DecimalRoundTrip(b);
    }
    assert StatusMessage(a)[0] == 'R';
  }

  /**
   * The two versions agree on 200 and on transport-free non-2xx replies as
   * to the file, and differ on the other 2xx codes: src/lib.rs writes them,
   * src/main.rs reports them as errors.
   */
  lemma LibAndMainOnStatus(status: nat, body: Option<string>, name: string, canCreate: bool)
    ensures status == 200 ==> LibOutcome(Reply(status, body), name, canCreate) == MainOutcome(Reply(status, body), name, canCreate)
    ensures IsSuccess(status) && status != 200 ==>
      LibOutcome(Reply(status, body), name, canCreate).created == canCreate
      && MainOutcome(Reply(status, body), name, canCreate) == Effect(false, Failed(StatusMessage(status)))
    ensures !IsSuccess(status) ==>
      LibOutcome(Reply(status, body), name, canCreate) == Effect(false, Returned(name))
      && MainOutcome(Reply(status, body), name, canCreate).result.Failed?
  {
  }

  /** The state after one `save_image` call: the URL is requested and the file exists if it was created. */
  function AfterSave(w: World, url: string, name: string, e: Effect): World
  {
    w.(paths := if e.created then w.paths + {name} else w.paths, requests := w.requests + [url])
  }

  /** `save_image` of src/lib.rs. */
  method LibSaveImage(host: Host, url: string, name: string, canCreate: bool) returns (r: SaveResult)
    modifies host
    ensures r == LibOutcome(host.web(url), name, canCreate).result
    ensures host.State() == AfterSave(old(host.State()), url, name, LibOutcome(host.web(url), name, canCreate))
  {
    var resp := host.Get(url);
    match resp
    case TransportError(reason) =>
      r := Failed(reason);
    case Reply(status, body) =>
      if IsSuccess(status) {
        if !canCreate {
          return Crashed;
        }
        host.Create(name);
        if body.None? {
          return Crashed;
        }
      }
      r := Returned(name);
  }

  /** `save_image` of src/main.rs. */
  method MainSaveImage(host: Host, url: string, name: string, canCreate: bool) returns (r: SaveResult)
    modifies host
    ensures r == MainOutcome(host.web(url), name, canCreate).result
    ensures host.State() == AfterSave(old(host.State()), url, name, MainOutcome(host.web(url), name, canCreate))
  {
    var resp := host.Get(url);
    match resp
    case TransportError(_) =>
      return Crashed;
    case Reply(status, body) =>
      if status == 200 {
        if !canCreate {
          return Crashed;
        }
        host.Create(name);
        if body.None? {
          return Crashed;
        }
        r := Returned(name);
      } else if status == 404 {
        r := Failed(NotFoundMessage);
      } else {
        r := Failed(StatusMessage(status));
      }
  }
}
