/** XmlSimpleConverter: the conversion of the node, way and relation records of an OSM XML 0.6
    document into the map's entities. Optional attributes carry a `Specified` flag and are copied
    only when it is set; lists are copied element by element in order. */
module XmlSimpleConverter {
  import opened Wrappers

  // ----- The records of OSM XML 0.6 -----

  datatype XmlTag = XmlTag(k: string, v: string)

  /** An `nd` element of a way: the id of one of its nodes. */
  datatype XmlNd = XmlNd(ref: int)

  datatype XmlMemberType = NodeType | WayType | RelationType

  datatype XmlMember = XmlMember(refSpecified: bool, ref: int, role: Option<string>,
                                 typeSpecified: bool, memberType: XmlMemberType)

  /** The attributes the three kinds of records share; an absent array or string is None.
      The timestamp is a count of ticks. */
  datatype XmlAttributes = XmlAttributes(
    idSpecified: bool, id: int,
    changesetSpecified: bool, changeset: int,
    visibleSpecified: bool, visible: bool,
    timestampSpecified: bool, timestamp: int,
    uidSpecified: bool, uid: int,
    versionSpecified: bool, version: int,
    user: Option<string>,
    tag: Option<seq<XmlTag>>)

  datatype XmlNode = XmlNode(attributes: XmlAttributes, latSpecified: bool, lat: real, lonSpecified: bool, lon: real)

  datatype XmlWay = XmlWay(attributes: XmlAttributes, nd: Option<seq<XmlNd>>)

  datatype XmlRelation = XmlRelation(attributes: XmlAttributes, member: Option<seq<XmlMember>>)

  // ----- The entities -----

  datatype Tag = Tag(key: string, value: string)

  /** The properties every entity has; None is a property the converter leaves as a new entity
      has it. */
  datatype EntityFields = EntityFields(
    id: Option<int>, changeSetId: Option<int>, visible: bool, timeStamp: Option<int>,
    userId: Option<int>, version: Option<int>, userName: Option<string>, tags: Option<seq<Tag>>)

  datatype Node = Node(fields: EntityFields, latitude: Option<real>, longitude: Option<real>)

  datatype Way = Way(fields: EntityFields, nodeIds: Option<seq<int>>)

  /** The placeholder entity a relation member points to: a new Node or a new Way. */
  datatype MemberEntity = NewNode | NewWay

  datatype RelationMember = RelationMember(memberId: Option<int>, memberRole: Option<string>, member: Option<MemberEntity>)

  datatype Relation = Relation(fields: EntityFields, members: Option<seq<RelationMember>>)

  // ----- The conversion, as functions -----

  function Specified<T>(flag: bool, value: T): Option<T> {
    if flag then Some(value) else None
  }

  /** ConvertToTags: null for an absent or empty array, otherwise one tag per element, in order. */
  function TagsOf(tag: Option<seq<XmlTag>>): (r: Option<seq<Tag>>)
    ensures r.None? <==> tag.None? || |tag.value| == 0
    ensures r.Some? ==> |r.value| == |tag.value|
                        && forall i :: 0 <= i < |r.value| ==> r.value[i] == Tag(tag.value[i].k, tag.value[i].v)
  {
    if tag.None? || |tag.value| == 0 then None
    else Some(seq(|tag.value|, i requires 0 <= i < |tag.value| => Tag(tag.value[i].k, tag.value[i].v)))
  }

  /** The shared part of the three conversions: Visible defaults to true. */
  function FieldsOf(a: XmlAttributes): EntityFields {
    EntityFields(Specified(a.idSpecified, a.id), Specified(a.changesetSpecified, a.changeset),
                 if a.visibleSpecified then a.visible else true,
                 Specified(a.timestampSpecified, a.timestamp), Specified(a.uidSpecified, a.uid),
                 Specified(a.versionSpecified, a.version), a.user, TagsOf(a.tag))
  }

  function NodeOf(nd: XmlNode): Node {
    Node(FieldsOf(nd.attributes), Specified(nd.latSpecified, nd.lat), Specified(nd.lonSpecified, nd.lon))
  }

  /** Way.NodeIds: unset for an absent or empty `nd` array, otherwise the refs in order. */
  function NodeIdsOf(nd: Option<seq<XmlNd>>): (r: Option<seq<int>>)
    ensures r.None? <==> nd.None? || |nd.value| == 0
    ensures r.Some? ==> |r.value| == |nd.value| && forall i :: 0 <= i < |r.value| ==> r.value[i] == nd.value[i].ref
  {
    if nd.None? || |nd.value| == 0 then None
    else Some(seq(|nd.value|, i requires 0 <= i < |nd.value| => nd.value[i].ref))
  }

  function WayOf(wa: XmlWay): Way {
    Way(FieldsOf(wa.attributes), NodeIdsOf(wa.nd))
  }

  /** The entity a member's type selects; a relation member becomes a Way, as in the source. */
  function EntityOf(t: XmlMemberType): MemberEntity {
    match t
    case NodeType => NewNode
    case WayType => NewWay
    case RelationType => NewWay
  }

  function MemberOf(mem: XmlMember): RelationMember {
    RelationMember(Specified(mem.refSpecified, mem.ref), mem.role,
                   if mem.typeSpecified then Some(EntityOf(mem.memberType)) else None)
  }

  /** Relation.Members: unset for an absent or empty array, otherwise one member per element. */
  function MembersOf(member: Option<seq<XmlMember>>): (r: Option<seq<RelationMember>>)
    ensures r.None? <==> member.None? || |member.value| == 0
    ensures r.Some? ==> |r.value| == |member.value| && forall i :: 0 <= i < |r.value| ==> r.value[i] == MemberOf(member.value[i])
  {
    if member.None? || |member.value| == 0 then None
    else Some(seq(|member.value|, i requires 0 <= i < |member.value| => MemberOf(member.value[i])))
  }

  function RelationOf(re: XmlRelation): Relation {
    Relation(FieldsOf(re.attributes), MembersOf(re.member))
  }

  // ----- What the conversion promises -----

  /** An entity is invisible exactly when the record says visible="false". */
  lemma VisibleUnlessHidden(a: XmlAttributes)
    ensures !FieldsOf(a).visible <==> a.visibleSpecified && !a.visible
    ensures NodeOf(XmlNode(a, false, 0.0, false, 0.0)).fields.visible == WayOf(XmlWay(a, None)).fields.visible
            == RelationOf(XmlRelation(a, None)).fields.visible == FieldsOf(a).visible
  {
  }

  /** An optional property is set exactly when its flag is, and then holds the record's value;
      the user name is copied whether present or not. */
  lemma SpecifiedValuesCopied(a: XmlAttributes)
    ensures FieldsOf(a).id.Some? <==> a.idSpecified
    ensures FieldsOf(a).changeSetId.Some? <==> a.changesetSpecified
    ensures FieldsOf(a).timeStamp.Some? <==> a.timestampSpecified
    ensures FieldsOf(a).userId.Some? <==> a.uidSpecified
    ensures FieldsOf(a).version.Some? <==> a.versionSpecified
    ensures a.idSpecified ==> FieldsOf(a).id.value == a.id
    ensures a.changesetSpecified ==> FieldsOf(a).changeSetId.value == a.changeset
    ensures a.timestampSpecified ==> FieldsOf(a).timeStamp.value == a.timestamp
    ensures a.uidSpecified ==> FieldsOf(a).userId.value == a.uid
    ensures a.versionSpecified ==> FieldsOf(a).version.value == a.version
    ensures FieldsOf(a).userName == a.user
  {
  }

  /** The attributes two records agree on, ignoring every value whose flag is clear. */
  predicate SameSpecified(a: XmlAttributes, b: XmlAttributes) {
    a.idSpecified == b.idSpecified && (a.idSpecified ==> a.id == b.id)
    && a.changesetSpecified == b.changesetSpecified && (a.changesetSpecified ==> a.changeset == b.changeset)
    && a.visibleSpecified == b.visibleSpecified && (a.visibleSpecified ==> a.visible == b.visible)
    && a.timestampSpecified == b.timestampSpecified && (a.timestampSpecified ==> a.timestamp == b.timestamp)
    && a.uidSpecified == b.uidSpecified && (a.uidSpecified ==> a.uid == b.uid)
    && a.versionSpecified == b.versionSpecified && (a.versionSpecified ==> a.version == b.version)
    && a.user == b.user && a.tag == b.tag
  }

  /** A value whose flag is clear never reaches the entity. */
  lemma UnspecifiedValuesIgnored(nd: XmlNode, nd': XmlNode)
    requires SameSpecified(nd.attributes, nd'.attributes)
    requires nd.latSpecified == nd'.latSpecified && (nd.latSpecified ==> nd.lat == nd'.lat)
    requires nd.lonSpecified == nd'.lonSpecified && (nd.lonSpecified ==> nd.lon == nd'.lon)
    ensures NodeOf(nd) == NodeOf(nd')
  {
  }

  /** Member by member: the id when its flag is set, the role always, and the type's entity,
      with a relation member pointing to a new Way. */
  lemma MembersCopied(re: XmlRelation, i: int)
    requires re.member.Some? && 0 <= i < |re.member.value|
    ensures RelationOf(re).members.Some? && |RelationOf(re).members.value| == |re.member.value|
    ensures var m := RelationOf(re).members.value[i];
            var x := re.member.value[i];
            (m.memberId.Some? <==> x.refSpecified) && (x.refSpecified ==> m.memberId.value == x.ref)
            && m.memberRole == x.role
            && (m.member.Some? <==> x.typeSpecified)
            && (x.typeSpecified ==> m.member.value == (if x.memberType == NodeType then NewNode else NewWay))
  {
  }

  // ----- The conversion, as the source's loops -----

  method ConvertToTags(tag: Option<seq<XmlTag>>) returns (tags: Option<seq<Tag>>)
    ensures tags == TagsOf(tag)
  {
    tags := None;
    if tag.Some? && |tag.value| > 0 {
      var list: seq<Tag> := [];
      for i := 0 to |tag.value|
        invariant |list| == i
        invariant forall j :: 0 <= j < i ==> list[j] == Tag(tag.value[j].k, tag.value[j].v)
      {
        var t := tag.value[i];
        list := list + [Tag(t.k, t.v)];
      }
      assert list == TagsOf(tag).value;
      tags := Some(list);
    }
  }

  method ConvertFields(a: XmlAttributes) returns (fields: EntityFields)
    ensures fields == FieldsOf(a)
  {
    var id := if a.idSpecified then Some(a.id) else None;
    var changeSetId := if a.changesetSpecified then Some(a.changeset) else None;
    var visible := if a.visibleSpecified then a.visible else true;
    var timeStamp := if a.timestampSpecified then Some(a.timestamp) else None;
    var userId := if a.uidSpecified then Some(a.uid) else None;
    var version := if a.versionSpecified then Some(a.version) else None;
    var tags := ConvertToTags(a.tag);
    fields := EntityFields(id, changeSetId, visible, timeStamp, userId, version, a.user, tags);
  }

  /** ConvertToSimple(node). */
  method ConvertNode(nd: XmlNode) returns (node: Node)
    ensures node == NodeOf(nd)
  {
    var fields := ConvertFields(nd.attributes);
    var latitude := if nd.latSpecified then Some(nd.lat) else None;
    var longitude := if nd.lonSpecified then Some(nd.lon) else None;
    node := Node(fields, latitude, longitude);
  }

  /** ConvertToSimple(way). */
  method ConvertWay(wa: XmlWay) returns (way: Way)
    ensures way == WayOf(wa)
  {
    var fields := ConvertFields(wa.attributes);
    var nodeIds: Option<seq<int>> := None;
    if wa.nd.Some? && |wa.nd.value| > 0 {
      var list: seq<int> := [];
      for idx := 0 to |wa.nd.value|
        invariant |list| == idx
        invariant forall j :: 0 <= j < idx ==> list[j] == wa.nd.value[j].ref
      {
        list := list + [wa.nd.value[idx].ref];
      }
      assert list == NodeIdsOf(wa.nd).value;
      nodeIds := Some(list);
    }
    way := Way(fields, nodeIds);
  }

  /** ConvertToSimple(relation). */
  method ConvertRelation(re: XmlRelation) returns (relation: Relation)
    ensures relation == RelationOf(re)
  {
    var fields := ConvertFields(re.attributes);
    var members: Option<seq<RelationMember>> := None;
    if re.member.Some? && |re.member.value| > 0 {
      var list: seq<RelationMember> := [];
      for idx := 0 to |re.member.value|
        invariant |list| == idx
        invariant forall j :: 0 <= j < idx ==> list[j] == MemberOf(re.member.value[j])
      {
        var mem := re.member.value[idx];
        var memberId := if mem.refSpecified then Some(mem.ref) else None;
        var entity: Option<MemberEntity> := None;
        if mem.typeSpecified {
          match mem.memberType
          case NodeType => entity := Some(NewNode);
          case WayType => entity := Some(NewWay);
          case RelationType => entity := Some(NewWay);
        }
        list := list + [RelationMember(memberId, mem.role, entity)];
      }
      assert list == MembersOf(re.member).value;
      members := Some(list);
    }
    relation := Relation(fields, members);
  }
}
