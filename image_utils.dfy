/**
 * Placeholder image URLs (src/utils/imageUtils.ts): an avatar URL per user and
 * one of three image services per post, chosen by the post id so that the same
 * post always gets the same picture.
 */
module ImageUtils {
  import opened Decimal

  const AvatarPrefix: string := "https://i.pravatar.cc/150?u="

  /** `getRandomUserAvatar`: the avatar service URL keyed by the user id. */
  function RandomUserAvatar(userId: string): (url: string)
    ensures |url| == |AvatarPrefix| + |userId|
    ensures url[..|AvatarPrefix|] == AvatarPrefix && url[|AvatarPrefix|..] == userId
  {
    AvatarPrefix + userId
  }

  const PicsumPrefix: string := "https://picsum.photos/seed/"
  const PicsumSuffix: string := "/400/300"
  const UnsplashPrefix: string := "https://source.unsplash.com/random/400x300?sig="
  const FlickrPrefix: string := "https://loremflickr.com/400/300?lock="

  /** The three candidate URLs for a post, in the order of the source's list. */
  function ImageServices(postId: nat): (services: seq<string>)
    ensures |services| == 3
  {
    [ PicsumPrefix + NatToString(postId) + PicsumSuffix,
      UnsplashPrefix + NatToString(postId),
      FlickrPrefix + NatToString(postId) ]
  }

  /** `getRandomPostImage`: the service at index `postId % 3`. */
  function RandomPostImage(postId: nat): (url: string)
    ensures postId % 3 < |ImageServices(postId)|
    ensures postId % 3 == 0 ==> url == PicsumPrefix + NatToString(postId) + PicsumSuffix
    ensures postId % 3 == 1 ==> url == UnsplashPrefix + NatToString(postId)
    ensures postId % 3 == 2 ==> url == FlickrPrefix + NatToString(postId)
  {
    ImageServices(postId)[postId % 3]
  }

  /** Two users get the same avatar exactly when they have the same id. */
  lemma AvatarInjective(a: string, b: string)
    ensures RandomUserAvatar(a) == RandomUserAvatar(b) <==> a == b
  {
    if RandomUserAvatar(a) == RandomUserAvatar(b) {
      assert a == RandomUserAvatar(a)[|AvatarPrefix|..];
    }
  }

  /** The text around the id in the URL of each service: prefix and suffix. */
  function ServiceAffixes(service: nat): (string, string)
    requires service < 3
  {
    if service == 0 then (PicsumPrefix, PicsumSuffix)
    else if service == 1 then (UnsplashPrefix, "")
    else (FlickrPrefix, "")
  }

  /** The digits embedded in a post's image URL, between the service's prefix and suffix. */
  lemma {:induction false} ImageEmbedsId(postId: nat)
    ensures var url := RandomPostImage(postId);
            var (pre, suf) := ServiceAffixes(postId % 3);
            |pre| + |suf| <= |url| && url[..|pre|] == pre &&
            url[|pre|..|url| - |suf|] == NatToString(postId) && url[|url| - |suf|..] == suf
  {
    var url := RandomPostImage(postId);
    var (pre, suf) := ServiceAffixes(postId % 3);
    assert url == pre + NatToString(postId) + suf;
    assert url[|pre|..|url| - |suf|] == NatToString(postId);
  }

  /** Different posts get different images: the URL determines the service and the id. */
  lemma PostImageInjective(p: nat, q: nat)
    ensures RandomPostImage(p) == RandomPostImage(q) ==> p == q
  {
    var up, uq := RandomPostImage(p), RandomPostImage(q);
    if up == uq {
      ImageEmbedsId(p);
      ImageEmbedsId(q);
      // The ninth character names the service: 'p'icsum, 's'ource.unsplash, 'l'oremflickr.
      assert up[8] == ServiceAffixes(p % 3).0[8];
      assert uq[8] == ServiceAffixes(q % 3).0[8];
      assert p % 3 == q % 3;
      NatToStringInjective(p, q);
    }
  }
}
