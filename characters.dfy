/** Turning NFT metadata into a playable character (lib/characters.ts).
    Metadata fields that may be missing or null are `Option`s; a list
    field is absent, present but not an array, or an array. */
module Characters {
  import opened Text
  import opened Types
  import opened Traits
  import opened Web3

  /** One raw attribute as the metadata carries it. */
  datatype RawTrait = RawTrait(traitType: Option<string>, value: Option<string>)

  datatype RawList = Absent | NotArray | Items(items: seq<RawTrait>)

  datatype RawMetadata = RawMetadata(
    name: Option<string>,
    image: Option<string>,
    imageUrl: Option<string>,
    mediaUrl: Option<string>,
    attributes: RawList,
    traits: RawList)

  const PlaceholderImage: string := "/characters/placeholder.svg"

  /** The list `normalizeAttributes` reads: `attributes` when it is an array,
      else `traits` when it is an array, else nothing. */
  function ChosenList(data: RawMetadata): seq<RawTrait>
  {
    if data.attributes.Items? then data.attributes.items
    else if data.traits.Items? then data.traits.items
    else []
  }

  /** `value ?? fallback`. */
  function OrElse(value: Option<string>, fallback: string): string
  {
    match value
    case Some(v) => v
    case None => fallback
  }

  /** `normalizeAttributes`: one trait per raw entry, in order, a missing type
      read as "Trait" and a missing value as "Unknown". */
  function NormalizeAttributes(data: RawMetadata): (attrs: seq<Trait>)
    ensures |attrs| == |ChosenList(data)|
    ensures forall i :: 0 <= i < |attrs| ==>
              var raw := ChosenList(data)[i];
              (raw.traitType.None? ==> attrs[i].traitType == "Trait")
              && (raw.traitType.Some? ==> attrs[i].traitType == raw.traitType.value)
              && (raw.value.None? ==> attrs[i].value == "Unknown")
              && (raw.value.Some? ==> attrs[i].value == raw.value.value)
  {
    var raw := ChosenList(data);
    seq(|raw|, i requires 0 <= i < |raw| => Trait(OrElse(raw[i].traitType, "Trait"), OrElse(raw[i].value, "Unknown")))
  }

  /** JavaScript truthiness of an optional string. */
  predicate Truthy(s: Option<string>)
  {
    s.Some? && s.value != []
  }

  /** `data.image || data.image_url || data.media_url || ""`. */
  function FirstImage(data: RawMetadata): (uri: string)
    ensures Truthy(data.image) ==> uri == data.image.value
    ensures !Truthy(data.image) && Truthy(data.imageUrl) ==> uri == data.imageUrl.value
    ensures !Truthy(data.image) && !Truthy(data.imageUrl) && Truthy(data.mediaUrl) ==> uri == data.mediaUrl.value
    ensures !Truthy(data.image) && !Truthy(data.imageUrl) && !Truthy(data.mediaUrl) ==> uri == []
  {
    if Truthy(data.image) then data.image.value
    else if Truthy(data.imageUrl) then data.imageUrl.value
    else if Truthy(data.mediaUrl) then data.mediaUrl.value
    else []
  }

  /** The resolved image, or the placeholder when that is empty: never empty. */
  function CharacterImage(data: RawMetadata): (image: string)
    ensures image != []
    ensures ResolveImageUri(FirstImage(data)) != [] ==> image == ResolveImageUri(FirstImage(data))
    ensures FirstImage(data) == [] ==> image == PlaceholderImage
  {
    var resolved := ResolveImageUri(FirstImage(data));
    if resolved != [] then resolved else PlaceholderImage
  }

  /** The display name: the metadata's name when non-empty, else "Token #"
      followed by the token id, or the id when there is no token id. */
  function CharacterName(id: string, data: RawMetadata, tokenId: Option<string>): (name: string)
    ensures name != []
    ensures Truthy(data.name) ==> name == data.name.value
    ensures !Truthy(data.name) ==> name == "Token #" + OrElse(tokenId, id)
  {
    if Truthy(data.name) then data.name.value else "Token #" + OrElse(tokenId, id)
  }

  /** `mapMetadataToCharacter`. */
  function MapMetadataToCharacter(id: string, data: RawMetadata, source: CharacterSource,
                                  tokenId: Option<string>, upgrades: Option<UpgradeState>): (c: Character)
    ensures c.id == id && c.source == source && c.tokenId == tokenId
    ensures c.attributes == NormalizeAttributes(data)
    ensures StatsAndRarity(c.stats, c.rarity) == DerivedStats(c.attributes, source, upgrades)
    ensures c.visuals == DeriveVisuals(c.attributes, source, c.rarity, upgrades)
    ensures c.name == CharacterName(id, data, tokenId) && c.image == CharacterImage(data)
    ensures 45.0 <= c.stats.power <= 130.0
    ensures c.visuals.particle == c.rarity
    ensures c.visuals.tier == Prestige <==> source == Wallet
  {
    var attributes := NormalizeAttributes(data);
    var derived := DerivedStats(attributes, source, upgrades);
    var visuals := DeriveVisuals(attributes, source, derived.rarity, upgrades);
    Character(id, CharacterName(id, data, tokenId), CharacterImage(data), attributes, source, tokenId,
              derived.rarity, derived.stats, visuals)
  }

  /** A metadata record whose traits come under `traits` rather than
      `attributes` yields the same character as one carrying them under
      `attributes`. */
  lemma {:induction false} TraitsFieldIsFallback(id: string, data: RawMetadata, source: CharacterSource,
                                                 tokenId: Option<string>, upgrades: Option<UpgradeState>)
    requires !data.attributes.Items? && data.traits.Items?
    ensures MapMetadataToCharacter(id, data, source, tokenId, upgrades)
            == MapMetadataToCharacter(id, data.(attributes := data.traits, traits := Absent), source, tokenId, upgrades)
  {
    assert ChosenList(data) == ChosenList(data.(attributes := data.traits, traits := Absent));
  }

  /** Metadata with no usable list gets the default stats, as a trait-less
      character. */
  lemma {:induction false} NoTraitsGivesDefaults(id: string, data: RawMetadata, tokenId: Option<string>)
    requires !data.attributes.Items? && !data.traits.Items?
    ensures var c := MapMetadataToCharacter(id, data, Public, tokenId, None);
      c.attributes == [] && c.rarity == "common" && c.stats == Stats(58.0, 60.0, 60.0, 60.0, 55.0, 55.0)
  {
    DefaultStats();
  }

  /** An `ipfs://` image ends up on the gateway. */
  lemma {:induction false} IpfsImageOnGateway(data: RawMetadata)
    requires Truthy(data.image) && StartsWith(data.image.value, IpfsScheme)
    ensures StartsWith(CharacterImage(data), Gateway)
  {
    var uri := data.image.value;
    ResolveSchemeUri(uri);
    OnGateway(SchemePath(uri));
    assert ResolveImageUri(uri) == Gateway + SchemePath(uri);
  }
}
