/** `SquidLogParameter`: one log event, built per call and passed by value. */
module Records {
  import opened Levels

  /** The payload is already stringified (the source interpolates `"\(object)"`);
      `line` is the call site's unsigned line number. */
  datatype Record = Record(
    payload: string,
    level: Level,
    category: string,
    file: string,
    line: nat,
    functionName: string)
}
