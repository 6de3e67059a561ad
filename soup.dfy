/** What the scraper reads from a parsed portal page. HTML parsing and the
    walk from an anchor's text node up to its enclosing table are abstracted:
    a page offers the KSI form field and, for each anchor text that occurs in
    it, the text of the cells of the table that the parent walk reaches. */
module Soup {
  import opened Wrappers

  /** The td texts of a table, row by row, as cell.text gives them (unstripped). */
  type Table = seq<seq<string>>

  /** python-slugify's slugify(text, separator='_'), left uninterpreted. */
  type Slugify = string -> string

  /** The element named KSI: absent, present without a value attribute, or with one. */
  datatype KsiInput = NoKsiInput | KsiInput(value: Option<string>)

  datatype Page = Page(ksiInput: KsiInput, tables: map<string, Table>) {
    /** soup.find(string=anchor) followed by the parent walk: the table, or None. */
    function Find(anchor: string): (r: Option<Table>)
      ensures r.Some? <==> anchor in tables
      ensures r.Some? ==> r.value == tables[anchor]
    {
      if anchor in tables then Some(tables[anchor]) else None
    }
  }
}
