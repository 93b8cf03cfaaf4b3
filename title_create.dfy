/**
 * Building the request body for a new custom title: the identifiers chosen in the form as
 * one of four flattened kinds are expanded into type and subtype, and the package the
 * title is created in becomes a resource of the title.
 */
module TitleCreate {
  import opened Common

  datatype IdentifierType = ISSN | ISBN
  datatype IdentifierSubtype = Online | Print

  /** One entry of the `flattenedIdentifiers` table. */
  datatype IdentifierKind = IdentifierKind(idType: IdentifierType, subtype: IdentifierSubtype)

  /** `flattenedIdentifiers`: the form's identifier kinds, by position. */
  const FlattenedIdentifiers: seq<IdentifierKind> := [
    IdentifierKind(ISSN, Online),
    IdentifierKind(ISSN, Print),
    IdentifierKind(ISBN, Online),
    IdentifierKind(ISBN, Print)
  ]

  /** An identifier as the form holds it; `flattenedType` absent (or 0) means the first kind. */
  datatype FlatIdentifier = FlatIdentifier(id: string, flattenedType: Option<int>)

  /**
   * An identifier as the server expects it. `kind` is `None` when the index lies outside the
   * table: spreading the resulting `undefined` adds no type or subtype.
   */
  datatype Identifier = Identifier(id: string, kind: Option<IdentifierKind>)

  /** The table position an identifier's kind stands for: an absent kind means the first entry. */
  function TypeIndex(flattenedType: Option<int>): int {
    if flattenedType.None? then 0 else flattenedType.value
  }

  /** Expands one form identifier: its id, with the type and subtype found at its kind's table position. */
  function ExpandIdentifier(ident: FlatIdentifier): (r: Identifier)
    ensures r.id == ident.id
    ensures r.kind.Some? <==> 0 <= TypeIndex(ident.flattenedType) < 4
    ensures ident.flattenedType == None || ident.flattenedType == Some(0) ==> r.kind == Some(IdentifierKind(ISSN, Online))
    ensures ident.flattenedType == Some(1) ==> r.kind == Some(IdentifierKind(ISSN, Print))
    ensures ident.flattenedType == Some(2) ==> r.kind == Some(IdentifierKind(ISBN, Online))
    ensures ident.flattenedType == Some(3) ==> r.kind == Some(IdentifierKind(ISBN, Print))
  {
    var k := TypeIndex(ident.flattenedType);
    Identifier(ident.id, if 0 <= k < |FlattenedIdentifiers| then Some(FlattenedIdentifiers[k]) else None)
  }

  /** expandIdentifiers: expands every identifier, keeping the list's order. */
  function ExpandIdentifiers(identifiers: seq<FlatIdentifier>): (r: seq<Identifier>)
    ensures |r| == |identifiers|
    ensures forall i :: 0 <= i < |r| ==> r[i] == ExpandIdentifier(identifiers[i])
  {
    if identifiers == [] then []
    else [ExpandIdentifier(identifiers[0])] + ExpandIdentifiers(identifiers[1..])
  }

  /** The position of a kind in `flattenedIdentifiers`: the inverse of the table lookup. */
  function KindIndex(kind: IdentifierKind): (k: int)
    ensures 0 <= k < |FlattenedIdentifiers| && FlattenedIdentifiers[k] == kind
  {
    match kind
    case IdentifierKind(ISSN, Online) => 0
    case IdentifierKind(ISSN, Print) => 1
    case IdentifierKind(ISBN, Online) => 2
    case IdentifierKind(ISBN, Print) => 3
  }

  /** Flattens an expanded identifier back into the form's shape, with the first kind written as absent. */
  function FlattenIdentifier(ident: Identifier): FlatIdentifier
    requires ident.kind.Some?
  {
    var k := KindIndex(ident.kind.value);
    FlatIdentifier(ident.id, if k == 0 then None else Some(k))
  }

  /** The form's identifier with `0` written as absent, the two spellings of the first kind. */
  function Normalized(ident: FlatIdentifier): FlatIdentifier {
    if ident.flattenedType == Some(0) then ident.(flattenedType := None) else ident
  }

  /** Expansion loses nothing but the spelling of the first kind: flattening gives the identifier back. */
  lemma ExpandThenFlatten(ident: FlatIdentifier)
    requires 0 <= TypeIndex(ident.flattenedType) < 4
    ensures ExpandIdentifier(ident).kind.Some?
    ensures FlattenIdentifier(ExpandIdentifier(ident)) == Normalized(ident)
  {
  }

  /** Two form identifiers expand alike exactly when they are the same up to the spelling of the first kind. */
  lemma ExpandIdentifierInjective(a: FlatIdentifier, b: FlatIdentifier)
    requires 0 <= TypeIndex(a.flattenedType) < 4 && 0 <= TypeIndex(b.flattenedType) < 4
    ensures ExpandIdentifier(a) == ExpandIdentifier(b) <==> Normalized(a) == Normalized(b)
  {
    ExpandThenFlatten(a);
    ExpandThenFlatten(b);
  }

  /** The values of the new-title form (its initial values name these attributes). */
  datatype TitleValues<Contributor> = TitleValues(
    name: string,
    edition: string,
    publisherName: string,
    publicationType: string,
    isPeerReviewed: bool,
    contributors: seq<Contributor>,
    identifiers: seq<FlatIdentifier>,
    description: string,
    packageId: string)

  /** `{ packageId }`: the resource created with the title. */
  datatype ResourceRef = ResourceRef(packageId: string)

  /** The attributes sent to the server: the form's, without `packageId`, plus `resources`. */
  datatype TitlePayload<Contributor> = TitlePayload(
    name: string,
    edition: string,
    publisherName: string,
    publicationType: string,
    isPeerReviewed: bool,
    contributors: seq<Contributor>,
    identifiers: seq<Identifier>,
    description: string,
    resources: seq<ResourceRef>)

  /** createTitle: the payload it passes on to the server. */
  function CreateTitlePayload<Contributor>(values: TitleValues<Contributor>): (p: TitlePayload<Contributor>)
    ensures p.resources == [ResourceRef(values.packageId)]
    ensures |p.identifiers| == |values.identifiers|
    ensures forall i :: 0 <= i < |p.identifiers| ==> p.identifiers[i] == ExpandIdentifier(values.identifiers[i])
    ensures p.name == values.name && p.edition == values.edition
    ensures p.publisherName == values.publisherName && p.publicationType == values.publicationType
    ensures p.isPeerReviewed == values.isPeerReviewed && p.contributors == values.contributors
    ensures p.description == values.description
  {
    TitlePayload(values.name, values.edition, values.publisherName, values.publicationType,
                 values.isPeerReviewed, values.contributors, ExpandIdentifiers(values.identifiers),
                 values.description, [ResourceRef(values.packageId)])
  }

  /** Reads the form values back from a payload whose identifiers all carry a kind. */
  function RecoverValues<Contributor>(p: TitlePayload<Contributor>): TitleValues<Contributor>
    requires |p.resources| == 1
    requires forall i :: 0 <= i < |p.identifiers| ==> p.identifiers[i].kind.Some?
  {
    TitleValues(p.name, p.edition, p.publisherName, p.publicationType, p.isPeerReviewed, p.contributors,
                seq(|p.identifiers|, i requires 0 <= i < |p.identifiers| => FlattenIdentifier(p.identifiers[i])),
                p.description, p.resources[0].packageId)
  }

  /** The payload keeps everything the form held: reading it back gives the form's values. */
  lemma PayloadRoundTrip<Contributor>(values: TitleValues<Contributor>)
    requires forall i :: 0 <= i < |values.identifiers| ==> 0 <= TypeIndex(values.identifiers[i].flattenedType) < 4
    ensures var p := CreateTitlePayload(values);
      && (forall i :: 0 <= i < |p.identifiers| ==> p.identifiers[i].kind.Some?)
      && RecoverValues(p) == values.(identifiers := seq(|values.identifiers|, i requires 0 <= i < |values.identifiers| => Normalized(values.identifiers[i])))
  {
    var p := CreateTitlePayload(values);
    forall i | 0 <= i < |values.identifiers|
      ensures p.identifiers[i].kind.Some? && FlattenIdentifier(p.identifiers[i]) == Normalized(values.identifiers[i])
    {
      ExpandThenFlatten(values.identifiers[i]);
    }
  }
}
