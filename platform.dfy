/** The JavaScript runtime services the core calls and that this model leaves abstract:
    WHATWG URL parsing, application/x-www-form-urlencoded parsing, `parseFloat`,
    printing a number, and MD5 hashing in hexadecimal. */
module Platform {
  import opened Common

  /** The parts of a parsed URL the core reads. `protocol` keeps its trailing ':' and
      `searchParams` is the query's list of name/value pairs in order. */
  datatype UrlRecord = UrlRecord(protocol: string, hostname: string, pathname: string,
                                 searchParams: seq<(string, string)>)

  datatype Runtime = Runtime(
    parseUrl: string -> Option<UrlRecord>,       // `new URL(s)`; None when it throws
    parseForm: string -> seq<(string, string)>,  // `new URLSearchParams(s)`
    parseFloat: string -> Number,                // `parseFloat(s)`
    numberText: Number -> string,                // `${n}` for a number n
    md5Hex: string -> string)                    // MD5 digest of a string, in hex
}
