/** How the core looks at one property of a value produced by `JSON.parse`
    (or by Express's JSON body parser): the parser itself is not modelled. */
module Json {

  /** A property read as `obj?.name`: missing (or read through a non-object),
      present with a value that is not a string, or a string. */
  datatype Prop = Absent | NonString | Str(value: string)
}
