/**
 * The response envelope: the `Error` record, the `Response` object whose
 * builder methods update it in place, and `Envelope`, the value of a
 * `Response` at the moment it is written to the transport.
 *
 * The payloads `Data`, `Meta` and `Detail` are arbitrary values in the
 * source; here they have the type parameter `P`, and `None` is `nil`.
 */
module Envelopes {
  import opened Wrappers

  /** A links map: title to URL. */
  type Links = map<string, string>

  /**
   * One reported error. `status` is a transport status that is never
   * serialized; `prevError` is the underlying cause (represented by its
   * message), kept for the diagnostic log only.
   */
  datatype Error<P> = Error(
    id: string,
    status: int,
    code: int,
    title: string,
    detail: Option<P>,
    links: Option<Links>,
    prevError: Option<string>)
  {
    /** The text of the error as a Go `error`: its title. */
    function Text(): string
    {
      title
    }
  }

  /** The observable value of a `Response`. `links == None` is a nil map. */
  datatype Envelope<P> = Envelope(
    httpStatus: int,
    links: Option<Links>,
    errors: seq<Error<P>>,
    meta: Option<P>,
    data: Option<P>,
    messages: seq<string>)

  /** The zero value `Response{}`: no status, no links, no errors, no payloads, no messages. */
  function ZeroEnvelope<P>(): Envelope<P>
  {
    Envelope(0, None, [], None, None, [])
  }

  /** The entries of a possibly nil links map. */
  function Entries(links: Option<Links>): Links
  {
    if links.Some? then links.value else map[]
  }

  /**
   * The links map after inserting `title -> link` into `links`, creating the
   * map first when it is nil.
   */
  function WithLink(links: Option<Links>, title: string, link: string): (m: Links)
    ensures m.Keys == Entries(links).Keys + {title}
    ensures m[title] == link
    ensures forall k :: k in Entries(links) && k != title ==> m[k] == Entries(links)[k]
  {
    Entries(links)[title := link]
  }

  /** Adding the same link twice leaves the map as adding it once. */
  lemma WithLinkIdempotent(links: Option<Links>, title: string, link: string)
    ensures WithLink(Some(WithLink(links, title, link)), title, link) == WithLink(links, title, link)
  {
  }

  /** A second link under the same title replaces the first. */
  lemma WithLinkOverwrites(links: Option<Links>, title: string, first: string, second: string)
    ensures WithLink(Some(WithLink(links, title, first)), title, second) == WithLink(links, title, second)
  {
  }

  /** Links under different titles can be added in either order: the map keeps no insertion order. */
  lemma WithLinkCommutes(links: Option<Links>, t1: string, l1: string, t2: string, l2: string)
    requires t1 != t2
    ensures WithLink(Some(WithLink(links, t1, l1)), t2, l2) == WithLink(Some(WithLink(links, t2, l2)), t1, l1)
  {
  }

  /** The response envelope, built up in place by its methods. */
  class Response<P> {
    var httpStatus: int
    var links: Option<Links>
    var errors: seq<Error<P>>
    var meta: Option<P>
    var data: Option<P>
    var messages: seq<string>

    /** The current value of the envelope. */
    function Snapshot(): Envelope<P>
      reads this
    {
      Envelope(httpStatus, links, errors, meta, data, messages)
    }

    /** `Response{}`. */
    constructor ()
      ensures Snapshot() == ZeroEnvelope()
    {
      httpStatus := 0;
      links := None;
      errors := [];
      meta := None;
      data := None;
      messages := [];
    }

    /** Replaces the data payload; nothing else changes. */
    method SetData(value: Option<P>)
      modifies this`data
      ensures Snapshot() == old(Snapshot()).(data := value)
    {
      data := value;
    }

    /** Replaces the meta payload; nothing else changes. */
    method SetMeta(value: Option<P>)
      modifies this`meta
      ensures Snapshot() == old(Snapshot()).(meta := value)
    {
      meta := value;
    }

    /** Appends `err` after the errors already reported; nothing else changes. */
    method AddError(err: Error<P>)
      modifies this`errors
      ensures errors == old(errors) + [err]
      ensures Snapshot() == old(Snapshot()).(errors := old(errors) + [err])
    {
      errors := errors + [err];
    }

    /** Appends `msg` after the messages already added; nothing else changes. */
    method AddMessage(msg: string)
      modifies this`messages
      ensures messages == old(messages) + [msg]
      ensures Snapshot() == old(Snapshot()).(messages := old(messages) + [msg])
    {
      messages := messages + [msg];
    }

    /**
     * Creates the links map if it is nil, then sets `title` to `link`;
     * every other title keeps its URL, and nothing else changes.
     */
    method AddLink(title: string, link: string)
      modifies this`links
      ensures links.Some? && title in links.value && links.value[title] == link
      ensures links == Some(WithLink(old(links), title, link))
      ensures Snapshot() == old(Snapshot()).(links := Some(WithLink(old(links), title, link)))
    {
      if links == None {
        links := Some(map[]);
      }
      links := Some(links.value[title := link]);
    }
  }

  /** Setting the data twice keeps only the second value. */
  method SetDataTwice<P>(r: Response<P>, first: Option<P>, second: Option<P>)
    modifies r`data
    ensures r.Snapshot() == old(r.Snapshot()).(data := second)
  {
    r.SetData(first);
    r.SetData(second);
  }

  /** Adding the same link twice leaves the envelope as adding it once. */
  method AddLinkTwice<P>(r: Response<P>, title: string, link: string)
    modifies r`links
    ensures r.Snapshot() == old(r.Snapshot()).(links := Some(WithLink(old(r.links), title, link)))
  {
    r.AddLink(title, link);
    WithLinkIdempotent(old(r.links), title, link);
    r.AddLink(title, link);
  }
}
