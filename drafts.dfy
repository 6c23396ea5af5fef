/** The new-post form of the logged-in homepage, held as a draft record. */
module Drafts {

  /** The names of the form's three inputs. */
  datatype Field = Location | Description | Date

  /** The draft of a post not yet submitted. */
  datatype Draft = Draft(location: string, description: string, date: string)

  /** The draft the form starts with and returns to after a post is created. */
  const Empty: Draft := Draft("", "", "")

  /** The text of one named field. */
  function Get(d: Draft, f: Field): string
  {
    match f
    case Location => d.location
    case Description => d.description
    case Date => d.date
  }

  /** The draft after an edit of the input `f`: that field holds the new
      text, and the other two keep theirs. */
  function SetField(d: Draft, f: Field, value: string): (r: Draft)
    ensures Get(r, f) == value
    ensures forall g :: g != f ==> Get(r, g) == Get(d, g)
  {
    match f
    case Location => d.(location := value)
    case Description => d.(description := value)
    case Date => d.(date := value)
  }

  /** Of two edits of one field, the later one wins. */
  lemma SetFieldLastWins(d: Draft, f: Field, v: string, w: string)
    ensures SetField(SetField(d, f, v), f, w) == SetField(d, f, w)
  {
  }

  /** Edits of two different fields can come in either order. */
  lemma SetFieldCommutes(d: Draft, f: Field, v: string, g: Field, w: string)
    requires f != g
    ensures SetField(SetField(d, f, v), g, w) == SetField(SetField(d, g, w), f, v)
  {
  }

  /** Writing back a field's own text changes nothing. */
  lemma SetFieldSame(d: Draft, f: Field)
    ensures SetField(d, f, Get(d, f)) == d
  {
  }
}
