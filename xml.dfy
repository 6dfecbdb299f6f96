/** A weather or place-search document as the pull parser delivers it: the
    sequence of events between START_DOCUMENT and END_DOCUMENT. */
module Xml {
  import opened Wrappers

  datatype Event =
    | StartTag(name: string, attrs: map<string, string>)
    | Text(text: string)
    | EndTag(name: string)

  /** `parser.getAttributeValue(null, name)` on a start tag: null when absent. */
  function GetAttributeValue(attrs: map<string, string>, name: string): (r: Option<string>)
    ensures r.Some? <==> name in attrs
    ensures r.Some? ==> r.value == attrs[name]
  {
    if name in attrs then Some(attrs[name]) else None
  }

  /** The attributes of every start tag called `name`, in document order. */
  function TagsNamed(name: string, events: seq<Event>): (tags: seq<map<string, string>>)
    ensures |tags| <= |events|
  {
    if |events| == 0 then []
    else
      var e := events[|events| - 1];
      var earlier := TagsNamed(name, events[..|events| - 1]);
      if e.StartTag? && e.name == name then earlier + [e.attrs] else earlier
  }
}
