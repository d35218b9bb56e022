/** The JSON bodies exchanged between the backend and the client. */
module Payloads {

  /**
   * The body of a successful `POST /business-data`. The rating is kept in
   * tenths (4.3 is 43): the backend only ever produces one-decimal ratings.
   * Timestamps are opaque strings.
   */
  datatype BusinessData = BusinessData(rating: int, reviews: int, headline: string, lastUpdated: string)

  /** The body of a successful `GET /regenerate-headline`. */
  datatype HeadlineBody = HeadlineBody(headline: string, generatedAt: string)
}
