/**
 * A recorded model of net/http's ResponseWriter: every call a handler makes is
 * an effect appended to a trace, and the status, headers and body the client
 * receives are read off the trace the way net/http commits them.
 */
module Http {
  import opened Wrappers
  import opened Models

  /** The JSON values the controller encodes. */
  datatype Json =
    | ErrorBody(error: string)
    | Entity(joke: Jusgo)
    | EntityList(jokes: seq<Jusgo>)

  /** One call on the ResponseWriter: Header().Set, WriteHeader, Write, or a JSON Encode into it. */
  datatype Effect =
    | SetHeader(key: string, value: string)
    | WriteHeader(code: int)
    | Write(text: string)
    | Encode(json: Json)

  /** Whether the effect writes body bytes. */
  predicate WritesBody(e: Effect)
  {
    e.Write? || e.Encode?
  }

  /** Whether the effect commits the response head: a WriteHeader or the first body write. */
  predicate Commits(e: Effect)
  {
    e.WriteHeader? || WritesBody(e)
  }

  /** Whether some effect of the trace commits the response head. */
  predicate Committed(trace: seq<Effect>)
  {
    exists i | 0 <= i < |trace| :: Commits(trace[i])
  }

  /**
   * The status the client receives: the first WriteHeader if it comes before
   * any body write, 200 otherwise (an implicit WriteHeader(200) on the first
   * write, or on return when nothing was written). Later WriteHeader calls are
   * superfluous and ignored.
   */
  function StatusOf(trace: seq<Effect>): (code: int)
    ensures !Committed(trace) ==> code == 200
  {
    if trace == [] then 200
    else if trace[0].WriteHeader? then trace[0].code
    else if WritesBody(trace[0]) then 200
    else
      assert !Committed(trace) ==> !Committed(trace[1..]) by {
        if Committed(trace[1..]) {
          var i :| 0 <= i < |trace[1..]| && Commits(trace[1..][i]);
          assert Commits(trace[i + 1]);
        }
      }
      StatusOf(trace[1..])
  }

  /**
   * The value of header `key` the client receives: the last Set before the
   * head is committed; Sets after that have no effect.
   */
  function HeaderOf(trace: seq<Effect>, key: string): Option<string>
  {
    HeaderFrom(trace, key, None)
  }

  function HeaderFrom(trace: seq<Effect>, key: string, current: Option<string>): Option<string>
  {
    if trace == [] || Commits(trace[0]) then current
    else if trace[0].SetHeader? && trace[0].key == key then HeaderFrom(trace[1..], key, Some(trace[0].value))
    else HeaderFrom(trace[1..], key, current)
  }

  /** The body writes of the trace, in order, whatever the status (for a HEAD request net/http discards them on the wire). */
  function BodyOf(trace: seq<Effect>): (body: seq<Effect>)
    ensures forall i | 0 <= i < |body| :: WritesBody(body[i])
    ensures |body| <= |trace|
  {
    if trace == [] then []
    else (if WritesBody(trace[0]) then [trace[0]] else []) + BodyOf(trace[1..])
  }

  /** The first thing the body carries is `e` (what follows it is an encoder's or writer's failure report). */
  predicate BodyStartsWith(trace: seq<Effect>, e: Effect)
  {
    |BodyOf(trace)| >= 1 && BodyOf(trace)[0] == e
  }

  /** Once the head is committed, nothing appended changes the status. */
  lemma {:induction false} StatusOfCommittedPrefix(a: seq<Effect>, b: seq<Effect>)
    requires Committed(a)
    ensures StatusOf(a + b) == StatusOf(a)
  {
    assert a != [];
    assert (a + b)[0] == a[0];
    if !Commits(a[0]) {
      var i :| 0 <= i < |a| && Commits(a[i]);
      assert Commits(a[1..][i - 1]);
      assert (a + b)[1..] == a[1..] + b;
      StatusOfCommittedPrefix(a[1..], b);
    }
  }

  /** While nothing is committed, the status is decided by what comes next. */
  lemma {:induction false} StatusOfUncommittedPrefix(a: seq<Effect>, b: seq<Effect>)
    requires !Committed(a)
    ensures StatusOf(a + b) == StatusOf(b)
  {
    if a != [] {
      assert !Commits(a[0]);
      assert (a + b)[0] == a[0];
      assert (a + b)[1..] == a[1..] + b;
      StatusOfUncommittedPrefix(a[1..], b);
    } else {
      assert a + b == b;
    }
  }

  lemma {:induction false} BodyOfAppend(a: seq<Effect>, b: seq<Effect>)
    ensures BodyOf(a + b) == BodyOf(a) + BodyOf(b)
  {
    if a == [] {
      assert a + b == b;
    } else {
      assert (a + b)[1..] == a[1..] + b;
      BodyOfAppend(a[1..], b);
    }
  }

  /** A head that only sets headers is followed by what decides the status. */
  lemma StatusOfHead(pre: seq<Effect>, code: int, rest: seq<Effect>)
    requires forall i | 0 <= i < |pre| :: pre[i].SetHeader?
    ensures StatusOf(pre + [WriteHeader(code)] + rest) == code
  {
    assert pre + [WriteHeader(code)] + rest == pre + ([WriteHeader(code)] + rest);
    StatusOfUncommittedPrefix(pre, [WriteHeader(code)] + rest);
  }

  lemma {:induction false} HeaderFromAppend(a: seq<Effect>, b: seq<Effect>, key: string, current: Option<string>)
    requires !Committed(a)
    ensures HeaderFrom(a + b, key, current) == HeaderFrom(b, key, HeaderFrom(a, key, current))
  {
    if a == [] {
      assert a + b == b;
    } else {
      assert (a + b)[0] == a[0];
      assert (a + b)[1..] == a[1..] + b;
      HeaderFromAppend(a[1..], b, key, if a[0].SetHeader? && a[0].key == key then Some(a[0].value) else current);
    }
  }

  /**
   * The header value the client sees when a head of Sets is followed by a
   * commit: the last Set of that key in the head.
   */
  lemma HeaderOfHead(pre: seq<Effect>, commit: Effect, rest: seq<Effect>, key: string)
    requires forall i | 0 <= i < |pre| :: pre[i].SetHeader?
    requires Commits(commit)
    ensures HeaderOf(pre + [commit] + rest, key) == HeaderFrom(pre, key, None)
  {
    assert pre + [commit] + rest == pre + ([commit] + rest);
    HeaderFromAppend(pre, [commit] + rest, key, None);
  }

  /**
   * http.Error: a plain-text error response. The message is written with a
   * trailing newline, as fmt.Fprintln does.
   */
  function HttpError(message: string, code: int): (trace: seq<Effect>)
    ensures StatusOf(trace) == code
    ensures HeaderOf(trace, "Content-Type") == Some("text/plain; charset=utf-8")
    ensures BodyOf(trace) == [Write(message + "\n")]
  {
    var head := [SetHeader("Content-Type", "text/plain; charset=utf-8"), SetHeader("X-Content-Type-Options", "nosniff")];
    var trace := head + [WriteHeader(code)] + [Write(message + "\n")];
    StatusOfHead(head, code, [Write(message + "\n")]);
    HeaderOfHead(head, WriteHeader(code), [Write(message + "\n")], "Content-Type");
    BodyOfAppend(head + [WriteHeader(code)], [Write(message + "\n")]);
    BodyOfAppend(head, [WriteHeader(code)]);
    trace
  }

  const StatusMovedPermanently := 301
  const HtmlContentType := "text/html; charset=utf-8"

  /**
   * http.Redirect(w, r, url, 301) on a fresh writer, for a url that is an
   * absolute path needing neither cleaning nor escaping: the Location header,
   * an HTML Content-Type for GET and HEAD, the status, and for GET only a
   * short HTML link to the target, written by fmt.Fprintln (hence the second
   * newline).
   */
  function MovedPermanently(verb: string, url: string): (trace: seq<Effect>)
    ensures StatusOf(trace) == StatusMovedPermanently
    ensures HeaderOf(trace, "Location") == Some(url)
    ensures HeaderOf(trace, "Content-Type") == if verb == "GET" || verb == "HEAD" then Some(HtmlContentType) else None
    ensures BodyOf(trace) == if verb == "GET" then [Write("<a href=\"" + url + "\">Moved Permanently</a>.\n\n")] else []
  {
    var head := RedirectHead(verb, url);
    var body := if verb == "GET" then [Write("<a href=\"" + url + "\">Moved Permanently</a>.\n\n")] else [];
    RedirectHeadHeaders(verb, url);
    StatusOfHead(head, StatusMovedPermanently, body);
    HeaderOfHead(head, WriteHeader(StatusMovedPermanently), body, "Location");
    HeaderOfHead(head, WriteHeader(StatusMovedPermanently), body, "Content-Type");
    BodyOfAppend(head + [WriteHeader(StatusMovedPermanently)], body);
    BodyOfAppend(head, [WriteHeader(StatusMovedPermanently)]);
    head + [WriteHeader(StatusMovedPermanently)] + body
  }

  /** The headers http.Redirect sets before it writes the status. */
  function RedirectHead(verb: string, url: string): (head: seq<Effect>)
    ensures forall i | 0 <= i < |head| :: head[i].SetHeader?
  {
    [SetHeader("Location", url)] + (if verb == "GET" || verb == "HEAD" then [SetHeader("Content-Type", HtmlContentType)] else [])
  }

  lemma RedirectHeadHeaders(verb: string, url: string)
    ensures HeaderFrom(RedirectHead(verb, url), "Location", None) == Some(url)
    ensures HeaderFrom(RedirectHead(verb, url), "Content-Type", None) ==
              if verb == "GET" || verb == "HEAD" then Some(HtmlContentType) else None
  {
    var head := RedirectHead(verb, url);
    assert "Location" != "Content-Type" by { assert "Location"[0] != "Content-Type"[0]; }
    assert !Commits(head[0]) && head[0] == SetHeader("Location", url);
    if |head| == 2 {
      assert !Commits(head[1..][0]) && head[1..][0] == SetHeader("Content-Type", HtmlContentType);
      assert head[1..][1..] == [];
      assert HeaderFrom(head[1..], "Location", Some(url)) == Some(url);
      assert HeaderFrom(head[1..], "Content-Type", None) == Some(HtmlContentType);
    } else {
      assert head[1..] == [];
    }
  }

  /** The response writer of one request, recording every call made on it. */
  class ResponseRecorder {
    var trace: seq<Effect>

    constructor ()
      ensures trace == []
    {
      trace := [];
    }

    method SetHeader(key: string, value: string)
      modifies this
      ensures trace == old(trace) + [Effect.SetHeader(key, value)]
    {
      trace := trace + [Effect.SetHeader(key, value)];
    }

    method WriteHeader(code: int)
      modifies this
      ensures trace == old(trace) + [Effect.WriteHeader(code)]
    {
      trace := trace + [Effect.WriteHeader(code)];
    }

    method Encode(value: Json)
      modifies this
      ensures trace == old(trace) + [Effect.Encode(value)]
    {
      trace := trace + [Effect.Encode(value)];
    }

    /** Replay the calls another component made, in order. */
    method Replay(effects: seq<Effect>)
      modifies this
      ensures trace == old(trace) + effects
    {
      trace := trace + effects;
    }
  }
}
