/**
 * Definitions shared by the Apigee discovery code: the OAuth grant types the
 * agent asks for, and the API document record that carries a resolved
 * portal title.
 */
module Definitions {
  import opened Wrappers

  /**
   * An OAuth grant type. The Go type is a plain `int`, so any integer is a
   * value of it; only Password and Refresh name a grant type.
   */
  newtype GrantType = int
  {
    /**
     * The grant_type parameter for this grant: "password" is the resource
     * owner password credentials grant (section 4.3.2 of RFC 6749),
     * "refresh_token" the refresh request (section 6 of RFC 6749). Any other
     * value indexes past the two-element table, hence the precondition.
     */
    function String(): (r: string)
      requires 0 <= this < 2
      ensures r == "password" <==> this == Password
      ensures r == "refresh_token" <==> this == Refresh
    {
      ["password", "refresh_token"][this as int]
    }
  }

  const Password: GrantType := 0
  const Refresh: GrantType := 1

  /** The two grant types are the consecutive values 0 and 1, named by distinct strings. */
  lemma GrantTypeStringInjective(g: GrantType, h: GrantType)
    requires 0 <= g < 2 && 0 <= h < 2
    ensures g.String() == h.String() ==> g == h
    ensures Password == 0 && Refresh == Password + 1
  {
  }

  /** The fields of an API document, as a value. */
  datatype ApiDoc = ApiDoc(
    id: int,
    portalID: string,
    title: string,
    description: string,
    apiID: string,
    productName: string,
    specContent: string,
    specTitle: string,
    specID: string,
    productExists: bool,
    modified: int,
    snapshotModified: int,
    imageURL: Option<string>,
    categoryIds: seq<int>,
    portalTitle: string)

  /** An API document of a portal, held by reference and updated in place. */
  class ApiDocData {
    var id: int
    var portalID: string
    var title: string
    var description: string
    var apiID: string
    var productName: string
    var specContent: string
    var specTitle: string
    var specID: string
    var productExists: bool
    var modified: int
    var snapshotModified: int
    var imageURL: Option<string>
    var categoryIds: seq<int>
    var portalTitle: string

    /** The document's current fields. */
    function Record(): ApiDoc
      reads this
    {
      ApiDoc(id, portalID, title, description, apiID, productName, specContent, specTitle,
             specID, productExists, modified, snapshotModified, imageURL, categoryIds, portalTitle)
    }

    constructor (d: ApiDoc)
      ensures Record() == d
    {
      id, portalID, title, description := d.id, d.portalID, d.title, d.description;
      apiID, productName, specContent := d.apiID, d.productName, d.specContent;
      specTitle, specID, productExists := d.specTitle, d.specID, d.productExists;
      modified, snapshotModified, imageURL := d.modified, d.snapshotModified, d.imageURL;
      categoryIds, portalTitle := d.categoryIds, d.portalTitle;
    }

    /** Sets the portal title and leaves every other field as it was. */
    method SetPortalTitle(title: string)
      modifies this
      ensures portalTitle == title
      ensures Record() == old(Record()).(portalTitle := title)
    {
      this.portalTitle := title;
    }
  }

  /** Two titles in a row leave the document as the second one alone would. */
  method SetPortalTitleTwice(doc: ApiDocData, t1: string, t2: string)
    modifies doc
    ensures doc.Record() == old(doc.Record()).(portalTitle := t2)
  {
    doc.SetPortalTitle(t1);
    doc.SetPortalTitle(t2);
  }

  /** Setting a title is last-write-wins and idempotent on the record value. */
  lemma PortalTitleLastWriteWins(d: ApiDoc, t1: string, t2: string)
    ensures d.(portalTitle := t1).(portalTitle := t2) == d.(portalTitle := t2)
    ensures d.(portalTitle := t1).(portalTitle := t1) == d.(portalTitle := t1)
    ensures d.(portalTitle := t1).portalTitle == t1
  {
  }
}
