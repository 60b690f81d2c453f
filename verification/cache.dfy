/** The sample cache of the audio engine: a map from a quantized frequency
    key to a rendered buffer, filled by get-or-render. The source holds one
    lock around the whole check, render and store step, so each call is one
    atomic step and a run of calls is a sequence of such steps. */
module ToneCache {
  import opened Wrappers

  /** The cache after a call and the buffer the call hands back. */
  datatype Lookup<K, V> = Lookup(cache: map<K, V>, sample: V)

  /** get_cached_sample: render and store only when the key is absent, then
      return the stored buffer; a failing render stores nothing. */
  function GetOrRender<F, K(==), V, E>(cache: map<K, V>, f: F, key: F -> K, render: F -> Result<V, E>)
    : (r: Result<Lookup<K, V>, E>)
    ensures key(f) in cache ==> r == Success(Lookup(cache, cache[key(f)]))
    ensures key(f) !in cache ==> (r.Success? <==> render(f).Success?)
    ensures key(f) !in cache && r.Success? ==> r.value.sample == render(f).value
    ensures key(f) !in cache && r.Failure? ==> r.error == render(f).error
    ensures r.Success? ==> key(f) in r.value.cache && r.value.cache[key(f)] == r.value.sample
    ensures r.Success? ==> r.value.cache.Keys == cache.Keys + {key(f)}
    ensures r.Success? ==> forall k :: k in cache ==> r.value.cache[k] == cache[k]
  {
    var k := key(f);
    if k in cache then Success(Lookup(cache, cache[k]))
    else
      match render(f)
      case Success(v) => Success(Lookup(cache[k := v], v))
      case Failure(e) => Failure(e)
  }

  /** clear_cache: drop every entry. */
  function Clear<K, V>(cache: map<K, V>): (r: map<K, V>)
    ensures r.Keys == {}
  {
    map[]
  }

  /** After a successful call, any request with the same key is a hit: it
      renders nothing, changes nothing and returns the same buffer. */
  lemma RepeatIsHit<F, K, V, E>(cache: map<K, V>, f: F, g: F, key: F -> K, render: F -> Result<V, E>)
    requires GetOrRender(cache, f, key, render).Success?
    requires key(g) == key(f)
    ensures var l := GetOrRender(cache, f, key, render).value;
      GetOrRender(l.cache, g, key, render) == Success(l)
  {
  }

  /** After clear_cache the next request renders afresh. */
  lemma ClearThenRenders<F, K, V, E>(cache: map<K, V>, f: F, key: F -> K, render: F -> Result<V, E>)
    ensures var r := GetOrRender(Clear(cache), f, key, render);
      && (r.Success? <==> render(f).Success?)
      && (r.Success? ==> r.value.sample == render(f).value && r.value.cache == map[key(f) := render(f).value])
  {
  }

  /** A run of requests served one after another under the lock: the final
      cache, one reply per request, and the keys rendered and stored, in order.
      `Serve` computes the run; what it guarantees about rendering and
      storing is the contract of `ServeRendersOncePerKey` below. */
  datatype Run<K, V, E> = Run(cache: map<K, V>, replies: seq<Result<V, E>>, rendered: seq<K>)

  function Serve<F, K(==), V, E>(cache: map<K, V>, requests: seq<F>, key: F -> K, render: F -> Result<V, E>)
    : (r: Run<K, V, E>)
    ensures |r.replies| == |requests|
    decreases |requests|
  {
    if requests == [] then Run(cache, [], [])
    else
      var f := requests[0];
      match GetOrRender(cache, f, key, render)
      case Failure(e) =>
        var rest := Serve(cache, requests[1..], key, render);
        Run(rest.cache, [Failure(e)] + rest.replies, rest.rendered)
      case Success(l) =>
        var rest := Serve(l.cache, requests[1..], key, render);
        Run(rest.cache, [Success(l.sample)] + rest.replies,
            (if key(f) in cache then [] else [key(f)]) + rest.rendered)
  }

  /** However requests interleave, each key is rendered and stored at most
      once, existing entries are never replaced, and every caller that gets a
      buffer gets the one finally stored under its key. */
  lemma {:induction false} ServeRendersOncePerKey<F, K, V, E>(
    cache: map<K, V>, requests: seq<F>, key: F -> K, render: F -> Result<V, E>)
    ensures var r := Serve(cache, requests, key, render);
      && cache.Keys <= r.cache.Keys
      && (forall k :: k in cache ==> r.cache[k] == cache[k])
      && (forall k :: k in r.rendered <==> k in r.cache && k !in cache)
      && (forall i, j :: 0 <= i < j < |r.rendered| ==> r.rendered[i] != r.rendered[j])
      && (forall i :: 0 <= i < |requests| && r.replies[i].Success? ==>
            key(requests[i]) in r.cache && r.replies[i].value == r.cache[key(requests[i])])
    decreases |requests|
  {
    if requests != [] {
      var r := Serve(cache, requests, key, render);
      var f := requests[0];
      var step := GetOrRender(cache, f, key, render);
      if step.Failure? {
        ServeRendersOncePerKey(cache, requests[1..], key, render);
        var rest := Serve(cache, requests[1..], key, render);
        forall i | 0 <= i < |requests| && r.replies[i].Success?
          ensures key(requests[i]) in r.cache && r.replies[i].value == r.cache[key(requests[i])]
        {
          assert i > 0 && r.replies[i] == rest.replies[i - 1] && requests[i] == requests[1..][i - 1];
        }
      } else {
        var l := step.value;
        ServeRendersOncePerKey(l.cache, requests[1..], key, render);
        var rest := Serve(l.cache, requests[1..], key, render);
        forall i | 0 <= i < |requests| && r.replies[i].Success?
          ensures key(requests[i]) in r.cache && r.replies[i].value == r.cache[key(requests[i])]
        {
          if i > 0 {
            assert r.replies[i] == rest.replies[i - 1] && requests[i] == requests[1..][i - 1];
          }
        }
      }
    }
  }
}
