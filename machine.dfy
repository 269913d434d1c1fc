/**
 * The outside world the downloader acts on: the filesystem, seen as the set
 * of paths that exist; the web, seen as the response each URL gives; and
 * the standard error stream. `World` is the value of that state and `Host`
 * the object the imperative code changes.
 */
module Machine {
  import opened Optional

  /**
   * What a GET request gives: a transport error with its message, or a
   * reply with a status code and a body that is either read completely
   * (its text) or breaks off while being read.
   */
  datatype Response = TransportError(reason: string) | Reply(status: nat, body: Option<string>)

  /** `StatusCode::is_success`: the 2xx codes. */
  predicate IsSuccess(status: nat)
  {
    200 <= status <= 299
  }

  /** Existing paths, URLs requested so far in order, and lines written to standard error. */
  datatype World = World(paths: set<string>, requests: seq<string>, stderr: seq<string>)

  class Host {
    var paths: set<string>
    var requests: seq<string>
    var stderr: seq<string>
    const web: string -> Response

    constructor (existing: set<string>, web: string -> Response)
      ensures State() == World(existing, [], [])
      ensures this.web == web
    {
      paths, requests, stderr := existing, [], [];
      this.web := web;
    }

    function State(): World
      reads this
    {
      World(paths, requests, stderr)
    }

    /** `client.get(url).send()`: the request is logged and answered. */
    method Get(url: string) returns (r: Response)
      modifies this
      ensures r == web(url)
      ensures State() == old(State()).(requests := old(requests) + [url])
    {
      requests := requests + [url];
      r := web(url);
    }

    /** `eprintln!`: one line on standard error. */
    method Report(line: string)
      modifies this
      ensures State() == old(State()).(stderr := old(stderr) + [line])
    {
      stderr := stderr + [line];
    }

    /** A file or directory comes into existence at `path`. */
    method Create(path: string)
      modifies this
      ensures State() == old(State()).(paths := old(paths) + {path})
    {
      paths := paths + {path};
    }
  }
}
