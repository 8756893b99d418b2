/** The behaviour script: generateJS returns one fixed text (scroll
    handling, section reveal on scroll, particle effects). The text is kept
    verbatim; what it does in a browser is not interpreted. */
module Script {

  /** The script after its first comment line, in short literals. */
  const ScriptBody: string :=
    @"document.querySelectorAll('nav a').forEach(anchor => {
  anchor.addEventListener('click', function(e) {
    e.preventDefault();
    
    const targetId = this.getAttribute('href');
    const targetElement = document.querySelector(targetId);
    
    if (targetElement) {
      window.scrollTo({
"
    + @"        top: targetElement.offsetTop - 60,
        behavior: 'smooth'
      });
    }
  });
});

"
    + @"// Intersection Observer for section animations
const sections = document.querySelectorAll('.section');
const observerOptions = {
  root: null,
  threshold: 0.1,
  rootMargin: '-50px'
};

"
    + @"const sectionObserver = new IntersectionObserver((entries) => {
  entries.forEach(entry => {
    if (entry.isIntersecting) {
      entry.target.classList.add('visible');
    }
  });
}, observerOptions);

"
    + @"sections.forEach(section => {
  sectionObserver.observe(section);
});

"
    + @"// Highlight active navigation item based on scroll position
const navLinks = document.querySelectorAll('nav a');

"
    + @"const updateActiveNavLink = () => {
  const fromTop = window.scrollY + 70;

"
    + @"  navLinks.forEach(link => {
    const section = document.querySelector(link.hash);
    
    if (
      section.offsetTop <= fromTop &&
      section.offsetTop + section.offsetHeight > fromTop
    ) {
      link.classList.add('active');
    } else {
      link.classList.remove('active');
    }
"
    + @"  });
};

"
    + @"window.addEventListener('scroll', updateActiveNavLink);
window.addEventListener('load', updateActiveNavLink);

"
    + @"// Add dynamic background particles
const createParticles = () => {
  const header = document.querySelector('header');
  const particlesContainer = document.createElement('div');
  particlesContainer.className = 'particles';
  particlesContainer.style.cssText = `
    position: absolute;
    top: 0;
"
    + @"    left: 0;
    width: 100%;
    height: 100%;
    overflow: hidden;
    z-index: 0;
  `;
  
  for (let i = 0; i < 50; i++) {
    const particle = document.createElement('div');
    particle.style.cssText = `
      position: absolute;
      background: rgba(255, 255, 255, 0.1);
"
    + @"      border-radius: 50%;
      pointer-events: none;
      transform: scale(0);
      animation: particle 3s infinite;
      animation-delay: ${Math.random() * 3}s;
    `;
    
    const size = Math.random() * 10 + 5;
    particle.style.width = `${size}px`;
    particle.style.height = `${size}px`;
"
    + @"    particle.style.left = `${Math.random() * 100}%`;
    particle.style.top = `${Math.random() * 100}%`;
    
    particlesContainer.appendChild(particle);
  }
  
  header.appendChild(particlesContainer);
};

"
    + @"// Add particle animation styles
const style = document.createElement('style');
style.textContent = `
  @keyframes particle {
    0% {
      transform: scale(0) translate(0, 0);
      opacity: 0;
    }
    50% {
      opacity: 1;
    }
    100% {
      transform: scale(1) translate(100px, -100px);
"
    + @"      opacity: 0;
    }
  }
`;
document.head.appendChild(style);

"
    + @"// Initialize particles on load
window.addEventListener('load', createParticles);

"
    + @"// Initialize the page
document.addEventListener('DOMContentLoaded', function() {
  console.log('Portfolio loaded successfully!');
});"

  /** generateJS: the same text on every call; it takes no input at all. */
  function GenerateJS(): (js: string)
    ensures "// Smooth scrolling for navigation links\n" <= js
    ensures |js| == 3174
  {
    "// Smooth scrolling for navigation links\n" + ScriptBody
  }
}
