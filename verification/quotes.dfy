/** The quote record the app lists and shows in detail. */
module Quotes {

  /** A quote as the list item renders it: its text and its author. No identity
      beyond structural equality. */
  datatype Quote = Quote(text: string, author: string)
}
