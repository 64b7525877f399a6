/**
 * Per-request model parameters (`Models\ModelSettings`). The PHP object is
 * never changed after construction: every `with*` and `resolve` clones the
 * receiver and assigns into the clone. It is therefore a value here, and a
 * datatype update `s.(f := v)` is "clone, then assign one field".
 */
module Settings {
  import opened Values

  datatype ModelSettings = ModelSettings(
    temperature: Option<Float>,
    topP: Option<Float>,
    frequencyPenalty: Option<Float>,
    presencePenalty: Option<Float>,
    maxTokens: Option<int>,
    timeout: Option<int>)
  {
    function WithTemperature(t: Float): ModelSettings { this.(temperature := Some(t)) }
    function WithTopP(p: Float): ModelSettings { this.(topP := Some(p)) }
    function WithFrequencyPenalty(p: Float): ModelSettings { this.(frequencyPenalty := Some(p)) }
    function WithPresencePenalty(p: Float): ModelSettings { this.(presencePenalty := Some(p)) }
    function WithMaxTokens(n: int): ModelSettings { this.(maxTokens := Some(n)) }
    function WithTimeout(n: int): ModelSettings { this.(timeout := Some(n)) }

    /**
     * `merge($other)`: the receiver when there is no other object, else a new
     * object whose every field is the other's value when non-null, else the
     * receiver's.
     */
    function Merge(other: Option<ModelSettings>): ModelSettings {
      match other
      case None => this
      case Some(o) =>
        ModelSettings(
          Override(o.temperature, temperature),
          Override(o.topP, topP),
          Override(o.frequencyPenalty, frequencyPenalty),
          Override(o.presencePenalty, presencePenalty),
          Override(o.maxTokens, maxTokens),
          Override(o.timeout, timeout))
    }

    /**
     * `resolve($other)`: clones the receiver and copies in each non-null
     * field of the other object, one `if` per field. It computes the same
     * settings as `merge`.
     */
    method Resolve(other: Option<ModelSettings>) returns (r: ModelSettings)
      ensures r == Merge(other)
    {
      if other.None? {
        return this;
      }
      var o := other.value;
      r := this;
      if o.temperature.Some? {
        r := r.(temperature := o.temperature);
      }
      if o.topP.Some? {
        r := r.(topP := o.topP);
      }
      if o.frequencyPenalty.Some? {
        r := r.(frequencyPenalty := o.frequencyPenalty);
      }
      if o.presencePenalty.Some? {
        r := r.(presencePenalty := o.presencePenalty);
      }
      if o.maxTokens.Some? {
        r := r.(maxTokens := o.maxTokens);
      }
      if o.timeout.Some? {
        r := r.(timeout := o.timeout);
      }
    }

    /** A request parameter's value in these settings, when the field behind it is non-null. */
    function Field(key: string): Option<Value> {
      if key == "temperature" then (if temperature.Some? then Some(VFloat(temperature.value)) else None)
      else if key == "top_p" then (if topP.Some? then Some(VFloat(topP.value)) else None)
      else if key == "frequency_penalty" then (if frequencyPenalty.Some? then Some(VFloat(frequencyPenalty.value)) else None)
      else if key == "presence_penalty" then (if presencePenalty.Some? then Some(VFloat(presencePenalty.value)) else None)
      else if key == "max_tokens" then (if maxTokens.Some? then Some(VInt(maxTokens.value)) else None)
      else None
    }

    /** The parameters these settings contribute to a request: every request key whose field is set. */
    function Fields(): map<string, Value> {
      map key | key in RequestKeys && Field(key).Some? :: Field(key).value
    }

    /**
     * `toArray()`: the request parameters, one key per non-null field among
     * the five sampling settings. The timeout is a client setting and never
     * appears.
     */
    method ToArray() returns (r: map<string, Value>)
      ensures r.Keys <= RequestKeys
      ensures "temperature" in r <==> temperature.Some?
      ensures "top_p" in r <==> topP.Some?
      ensures "frequency_penalty" in r <==> frequencyPenalty.Some?
      ensures "presence_penalty" in r <==> presencePenalty.Some?
      ensures "max_tokens" in r <==> maxTokens.Some?
      ensures temperature.Some? ==> r["temperature"] == VFloat(temperature.value)
      ensures topP.Some? ==> r["top_p"] == VFloat(topP.value)
      ensures frequencyPenalty.Some? ==> r["frequency_penalty"] == VFloat(frequencyPenalty.value)
      ensures presencePenalty.Some? ==> r["presence_penalty"] == VFloat(presencePenalty.value)
      ensures maxTokens.Some? ==> r["max_tokens"] == VInt(maxTokens.value)
      ensures r == Fields()
    {
      r := map[];
      if temperature.Some? {
        r := r["temperature" := VFloat(temperature.value)];
      }
      if topP.Some? {
        r := r["top_p" := VFloat(topP.value)];
      }
      if frequencyPenalty.Some? {
        r := r["frequency_penalty" := VFloat(frequencyPenalty.value)];
      }
      if presencePenalty.Some? {
        r := r["presence_penalty" := VFloat(presencePenalty.value)];
      }
      if maxTokens.Some? {
        r := r["max_tokens" := VInt(maxTokens.value)];
      }
      FieldsDetermined(this, r);
    }
  }

  /** A parameter map with the keys and values `toArray` promises is the settings' `Fields()`. */
  lemma FieldsDetermined(s: ModelSettings, r: map<string, Value>)
    requires r.Keys <= RequestKeys
    requires "temperature" in r <==> s.temperature.Some?
    requires "top_p" in r <==> s.topP.Some?
    requires "frequency_penalty" in r <==> s.frequencyPenalty.Some?
    requires "presence_penalty" in r <==> s.presencePenalty.Some?
    requires "max_tokens" in r <==> s.maxTokens.Some?
    requires s.temperature.Some? ==> r["temperature"] == VFloat(s.temperature.value)
    requires s.topP.Some? ==> r["top_p"] == VFloat(s.topP.value)
    requires s.frequencyPenalty.Some? ==> r["frequency_penalty"] == VFloat(s.frequencyPenalty.value)
    requires s.presencePenalty.Some? ==> r["presence_penalty"] == VFloat(s.presencePenalty.value)
    requires s.maxTokens.Some? ==> r["max_tokens"] == VInt(s.maxTokens.value)
    ensures r == s.Fields()
  {
    forall key | key in r
      ensures key in s.Fields() && r[key] == s.Fields()[key]
    {
      assert key in RequestKeys;
    }
    forall key | key in s.Fields()
      ensures key in r
    {
      assert key in RequestKeys;
    }
  }

  /** The keys `toArray` may produce. */
  const RequestKeys: set<string> := {"temperature", "top_p", "frequency_penalty", "presence_penalty", "max_tokens"}

  /** `new ModelSettings()`: every field null. */
  const Unset := ModelSettings(None, None, None, None, None, None)

  /** `$other->f ?? $this->f`. */
  function Override<T>(preferred: Option<T>, fallback: Option<T>): Option<T> {
    if preferred.Some? then preferred else fallback
  }

  /** Merging with nothing, with an all-null object, or into an all-null object changes nothing. */
  lemma MergeIdentity(s: ModelSettings)
    ensures s.Merge(None) == s
    ensures s.Merge(Some(Unset)) == s
    ensures Unset.Merge(Some(s)) == s
  {
  }

  /** Merging a settings object with itself changes nothing. */
  lemma MergeIdempotent(s: ModelSettings)
    ensures s.Merge(Some(s)) == s
  {
  }

  /** Successive merges can be regrouped: overriding by b then c is overriding by (b overridden by c). */
  lemma MergeAssociative(a: ModelSettings, b: ModelSettings, c: ModelSettings)
    ensures a.Merge(Some(b)).Merge(Some(c)) == a.Merge(Some(b.Merge(Some(c))))
  {
  }

  /** Non-null override wins: a field set in the other object is taken from it, an unset one from the receiver. */
  lemma MergeOverrideWins(s: ModelSettings, o: ModelSettings)
    ensures o.temperature.Some? ==> s.Merge(Some(o)).temperature == o.temperature
    ensures o.temperature.None? ==> s.Merge(Some(o)).temperature == s.temperature
    ensures o.topP.Some? ==> s.Merge(Some(o)).topP == o.topP
    ensures o.topP.None? ==> s.Merge(Some(o)).topP == s.topP
    ensures o.frequencyPenalty.Some? ==> s.Merge(Some(o)).frequencyPenalty == o.frequencyPenalty
    ensures o.frequencyPenalty.None? ==> s.Merge(Some(o)).frequencyPenalty == s.frequencyPenalty
    ensures o.presencePenalty.Some? ==> s.Merge(Some(o)).presencePenalty == o.presencePenalty
    ensures o.presencePenalty.None? ==> s.Merge(Some(o)).presencePenalty == s.presencePenalty
    ensures o.maxTokens.Some? ==> s.Merge(Some(o)).maxTokens == o.maxTokens
    ensures o.maxTokens.None? ==> s.Merge(Some(o)).maxTokens == s.maxTokens
    ensures o.timeout.Some? ==> s.Merge(Some(o)).timeout == o.timeout
    ensures o.timeout.None? ==> s.Merge(Some(o)).timeout == s.timeout
  {
  }

  /**
   * Each `with*` copy differs from the receiver in its one field only: it is
   * the receiver merged with an object that sets just that field.
   */
  lemma WithIsOneFieldMerge(s: ModelSettings, f: Float, n: int)
    ensures s.WithTemperature(f) == s.Merge(Some(Unset.(temperature := Some(f))))
    ensures s.WithTopP(f) == s.Merge(Some(Unset.(topP := Some(f))))
    ensures s.WithFrequencyPenalty(f) == s.Merge(Some(Unset.(frequencyPenalty := Some(f))))
    ensures s.WithPresencePenalty(f) == s.Merge(Some(Unset.(presencePenalty := Some(f))))
    ensures s.WithMaxTokens(n) == s.Merge(Some(Unset.(maxTokens := Some(n))))
    ensures s.WithTimeout(n) == s.Merge(Some(Unset.(timeout := Some(n))))
  {
  }
}
