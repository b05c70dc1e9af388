/**
 * Klak's FloatInterpolator: a float that follows its target directly, exponentially (ETween) or
 * through a critically damped spring (DTween), as its Config selects. `Time.deltaTime` is the
 * parameter `dt` and Mathf.Exp the parameter `exp`.
 */
module Interpolator {
  import ETween
  import DTween

  datatype InterpolationType = Direct | Exponential | DampedSpring

  /** FloatInterpolator.Config: a settable interpolation type and speed. */
  class Config {
    var interpolationType: InterpolationType
    var interpolationSpeed: real

    /** The default configuration: a damped spring with speed 10. */
    constructor ()
      ensures interpolationType == DampedSpring && interpolationSpeed == 10.0
      ensures Enabled()
    {
      interpolationType := DampedSpring;
      interpolationSpeed := 10.0;
    }

    constructor Make(interpolationType: InterpolationType, interpolationSpeed: real)
      ensures this.interpolationType == interpolationType && this.interpolationSpeed == interpolationSpeed
    {
      this.interpolationType := interpolationType;
      this.interpolationSpeed := interpolationSpeed;
    }

    /** `enabled`: anything but direct assignment. */
    predicate Enabled()
      reads this
    {
      interpolationType != InterpolationType.Direct
    }

    /** The `Direct` preset: a fresh configuration that is not enabled. */
    static method DirectPreset() returns (c: Config)
      ensures fresh(c)
      ensures c.interpolationType == InterpolationType.Direct && c.interpolationSpeed == 10.0
      ensures !c.Enabled()
    {
      c := new Config.Make(InterpolationType.Direct, 10.0);
    }

    /** The `Quick` preset: a fresh, enabled damped spring with speed 50. */
    static method QuickPreset() returns (c: Config)
      ensures fresh(c)
      ensures c.interpolationType == DampedSpring && c.interpolationSpeed == 50.0
      ensures c.Enabled()
    {
      c := new Config.Make(DampedSpring, 50.0);
    }
  }

  class FloatInterpolator {
    var config: Config
    var currentValue: real
    var targetValue: real
    var velocity: real

    /** Starts at rest on `initialValue`. */
    constructor (initialValue: real, config: Config)
      ensures this.config == config
      ensures currentValue == initialValue && targetValue == initialValue && velocity == 0.0
    {
      this.config := config;
      currentValue := initialValue;
      targetValue := initialValue;
      velocity := 0.0;
    }

    /** The spring step divides by `(1 + speed * dt)^2`; the other modes need nothing. */
    predicate CanStep(dt: real)
      reads this, config
    {
      config.interpolationType == DampedSpring ==> DTween.Solvable(config.interpolationSpeed, dt)
    }

    /**
     * Step(): advances `currentValue` toward `targetValue` in the configured mode and returns it.
     * The velocity changes only in spring mode; a value at rest on its target stays there.
     */
    method Step(dt: real, exp: real -> real) returns (r: real)
      requires CanStep(dt)
      modifies this
      ensures config == old(config) && targetValue == old(targetValue)
      ensures r == currentValue
      ensures config.interpolationType == InterpolationType.Direct ==>
        currentValue == targetValue && velocity == old(velocity)
      ensures config.interpolationType == Exponential ==>
        currentValue == ETween.Step(old(currentValue), targetValue, config.interpolationSpeed, dt, exp)
        && velocity == old(velocity)
      ensures config.interpolationType == DampedSpring ==>
        DTween.Spring(currentValue, velocity)
        == DTween.StepFloat(old(currentValue), targetValue, old(velocity), config.interpolationSpeed, dt)
      ensures old(currentValue) == targetValue && old(velocity) == 0.0 ==>
        currentValue == targetValue && velocity == 0.0
    {
      var speed := config.interpolationSpeed;
      if config.interpolationType == Exponential {
        ETween.StepFixedPoint(currentValue, speed, dt, exp);
        currentValue := ETween.Step(currentValue, targetValue, speed, dt, exp);
      } else if config.interpolationType == DampedSpring {
        DTween.StepAtRest(currentValue, speed, dt);
        var s := DTween.StepFloat(currentValue, targetValue, velocity, speed, dt);
        currentValue := s.position;
        velocity := s.velocity;
      } else {
        currentValue := targetValue;
      }
      r := currentValue;
    }

    /** Step(targetValue): retargets, then steps as above. */
    method StepTo(target: real, dt: real, exp: real -> real) returns (r: real)
      requires CanStep(dt)
      modifies this
      ensures config == old(config) && targetValue == target
      ensures r == currentValue
      ensures config.interpolationType == InterpolationType.Direct ==>
        currentValue == target && velocity == old(velocity)
      ensures config.interpolationType == Exponential ==>
        currentValue == ETween.Step(old(currentValue), target, config.interpolationSpeed, dt, exp)
        && velocity == old(velocity)
      ensures config.interpolationType == DampedSpring ==>
        DTween.Spring(currentValue, velocity)
        == DTween.StepFloat(old(currentValue), target, old(velocity), config.interpolationSpeed, dt)
    {
      targetValue := target;
      r := Step(dt, exp);
    }
  }
}
