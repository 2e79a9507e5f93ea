/** The database keys of the evictor: an Ice identity, its name first, in the codec's encoding. */
module IdentityKeys {
  import opened EvictorTypes
  import opened ByteStrings
  import opened Wire
  import opened Codec
  import opened BatchIterator

  /** struct Identity { string name; string category; }, whose members in name order are category, name. */
  const IDENTITY := StructT([StringT, StringT], [1, 0])

  function KeyOf(name: seq<byte>, category: seq<byte>): DbKey {
    StringBytes(name) + StringBytes(category)
  }

  lemma KeyIsMarshalled(name: seq<byte>, category: seq<byte>)
    ensures LegalType(IDENTITY) && Shaped(IDENTITY, StructV([StringV(category), StringV(name)]))
    ensures Marshal(IDENTITY, StructV([StringV(category), StringV(name)])) == Some(KeyOf(name, category))
  {
    var members := [StringV(category), StringV(name)];
    var d1: seq<nat>, d2: seq<nat> := [1, 0], [0];
    assert d1[1..] == d2 && d2[1..] == [];
    assert MarshalMembers(IDENTITY, [0], members) == Some(StringBytes(category) + []);
    assert MarshalMembers(IDENTITY, [1, 0], members) == Both(Some(StringBytes(name)), Some(StringBytes(category) + []));
    assert StringBytes(category) + [] == StringBytes(category);
  }

  /** Different identities have different keys. */
  lemma KeysDiffer(name: seq<byte>, category: seq<byte>, name': seq<byte>, category': seq<byte>)
    requires |name| <= INT_MAX && |category| <= INT_MAX && |name'| <= INT_MAX && |category'| <= INT_MAX
    requires KeyOf(name, category) == KeyOf(name', category')
    ensures name == name' && category == category'
  {
    StringRoundTrip(name, StringBytes(category));
    StringRoundTrip(name', StringBytes(category'));
    StringRoundTrip(category, []);
    StringRoundTrip(category', []);
    assert StringBytes(category) + [] == StringBytes(category);
    assert StringBytes(category') + [] == StringBytes(category');
  }

  /** What the evictor iterator needs to know of a key: it starts with a byte that is not zero exactly when the name is not empty. */
  lemma KeyStart(name: seq<byte>, category: seq<byte>)
    ensures KeyOf(name, category) != []
    ensures KeyOf(name, category)[0] != 0 <==> name != []
  {
  }

  /** Strings of at most 254 bytes take one byte more than they have, so that these are the keys of almost all identities. */
  lemma KeyForm(name: seq<byte>, category: seq<byte>)
    ensures |KeyOf(name, category)| == |name| + (if |name| <= 254 then 1 else 5) + |category| + (if |category| <= 254 then 1 else 5)
    ensures |name| <= 254 && |category| <= 254 ==> KeyOf(name, category) == [|name| as byte] + name + [|category| as byte] + category
  {
    StringForm(name);
    StringForm(category);
    if |name| <= 254 && |category| <= 254 {
      assert StringBytes(name) == [|name| as byte] + name && StringBytes(category) == [|category| as byte] + category;
    }
  }
}
