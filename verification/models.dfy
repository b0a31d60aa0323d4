/** The stored entities the modelled handlers read and write. */
module Models {
  import opened Json

  datatype Tracker = Tracker(id: string, kind: string, name: string, mode: string, status: string)

  datatype Campaign = Campaign(id: string, trackerId: string, name: string, status: string)

  /** A traffic channel of a campaign; `tags` is free-form string pairs. */
  datatype Channel = Channel(
    id: string, trackerId: string, campaignId: string, name: string,
    source: string, medium: string, tags: map<string, string>)

  /** A landing URL a token can redirect to. */
  datatype Target = Target(id: string, trackerId: string, url: string)

  datatype Site = Site(id: string, name: string, domain: string, siteKey: string, status: string)

  /** A short-code tracking token and the ids it resolves to. */
  datatype Token = Token(
    id: string, shortCode: string, trackerId: string, campaignId: string,
    channelId: string, targetId: string, mode: string)

  /** One recorded click; `ts` is unix seconds. */
  datatype Click = Click(
    ts: int, trackerId: string, campaignId: string, channelId: string, targetId: string,
    visitorId: string, ip: string, country: string, ua: string, lang: string, referer: string,
    props: JsonObject, suspectedBot: bool, isBot: bool)

  /** One recorded page event; `ts` is unix seconds. */
  datatype Event = Event(
    ts: int, siteId: string, kind: string, visitorId: string, sessionId: string,
    url: string, title: string, referrer: string, ip: string, country: string,
    ua: string, lang: string, props: JsonObject, suspectedBot: bool, isBot: bool)
}
